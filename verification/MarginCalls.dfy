/** Margin calls, black swans and global settlement. */
module MarginCalls {
  import opened Wrappers
  import opened Arithmetic
  import opened Prices
  import opened Sums
  import opened MarketState
  import opened MarketFill
  import opened Sound
  import opened Ranking

  // ----- the books ------------------------------------------------------------------------

  /** Limit orders selling one asset for another. */
  function Bids(m: Market, sell: Asset, receive: Asset): map<Id, Price> {
    map i | i in m.orders && m.orders[i].sell == sell && m.orders[i].receive == receive :: m.orders[i].price
  }

  /** Positions owing an asset, as debt per collateral at the call price: the first is called first. */
  function Positions(m: Market, a: Asset): map<Id, Price> {
    map i | i in m.calls && m.calls[i].owed == a :: Invert(m.calls[i].callPrice)
  }

  /** Bids no worse than the short-squeeze protection allows. Prices in different assets compare by the
      assets' ids, so that no bid for the backing asset is worse than a limit in an older asset. */
  function Squeezable(m: Market, a: Asset, b: BitAsset): map<Id, Price>
    requires b.feed.Some?
  {
    var f := b.feed.value;
    map i | i in Bids(m, a, b.backing) && (f.quote < b.backing || AtLeast(m.orders[i].price, f.squeeze)) :: m.orders[i].price
  }

  lemma BidsRankable(m: Market, sell: Asset, receive: Asset)
    requires WellFormed(m)
    ensures Rankable(Bids(m, sell, receive))
  {
    forall i | i in m.orders ensures Positive(m.orders[i].price) { assert OrderOk(m, m.orders[i]); }
  }

  lemma PositionsRankable(m: Market, a: Asset)
    requires WellFormed(m)
    ensures Rankable(Positions(m, a))
  {
    forall i | i in m.calls ensures Positive(m.calls[i].callPrice) { assert CallOk(m, m.calls[i]); }
  }

  /** The position that is called first: the one with the lowest call price. */
  ghost function CalledFirst(m: Market, a: Asset): (i: Id)
    requires WellFormed(m) && Positions(m, a) != map[]
    ensures i in m.calls && m.calls[i].owed == a && IsFirst(Positions(m, a), i)
  {
    PositionsRankable(m, a);
    First(Positions(m, a))
  }

  // ----- global settlement ------------------------------------------------------------------

  /** Collateral taken from one position: never more than it has. */
  function Seized(c: CallOrder, price: Price): nat
    requires price.base > 0
  {
    Min(ToQuote(c.debt, price), c.collateral)
  }

  ghost function CloseAll(m: Market, a: Asset, price: Price): (Market, nat)
    requires WellFormed(m) && price.base > 0
    decreases |m.calls|
  {
    if Positions(m, a) == map[] then (m, 0)
    else
      var i := CalledFirst(m, a);
      var c := m.calls[i];
      FillCallKeeps(m, i, Seized(c, price), c.debt);
      MinusSize(m.calls, i);
      var (m', rest) := CloseAll(FillCall(m, i, Seized(c, price), c.debt).0, a, price);
      (m', Seized(c, price) + rest)
  }

  function NonNegative(x: int): nat {
    if x < 0 then 0 else x
  }

  /** All positions closed at one price; the supply is put back, to be paid out of what was seized. */
  ghost function GlobalSettle(m: Market, a: Asset, price: Price): Market
    requires WellFormed(m) && price.base > 0 && Bit(m, a).Some?
  {
    var supply := m.assets[a].supply;
    CloseAllKeeps(m, a, price);
    var (m', gathered) := CloseAll(m, a, price);
    WithAsset(m', a, SettledRow(m'.assets[a], supply, gathered))
  }

  function SettledRow(d: AssetData, supply: int, gathered: nat): AssetData
    requires d.bit.Some?
  {
    d.(supply := supply, bit := Some(d.bit.value.(settlement := Some(Price(NonNegative(supply), gathered)), fund := gathered)))
  }

  lemma {:induction false} CloseAllKeeps(m: Market, a: Asset, price: Price)
    requires WellFormed(m) && price.base > 0
    ensures var m' := CloseAll(m, a, price).0;
      && WellFormed(m') && SameConfig(m, m') && m'.orders == m.orders && m'.settles == m.settles
      && Positions(m', a) == map[]
      && (forall j :: j in m'.calls ==> j in m.calls && m'.calls[j] == m.calls[j])
      && (forall d :: d in m.assets && d != a ==> Supply(m', d) == Supply(m, d))
    decreases |m.calls|
  {
    if Positions(m, a) != map[] {
      var i := CalledFirst(m, a);
      var c := m.calls[i];
      FillCallKeeps(m, i, Seized(c, price), c.debt);
      FillCallFrame(m, i, Seized(c, price), c.debt);
      MinusSize(m.calls, i);
      CloseAllKeeps(FillCall(m, i, Seized(c, price), c.debt).0, a, price);
    }
  }

  /** What is seized leaves the books, and nothing else does. */
  lemma {:induction false} CloseAllHeld(m: Market, a: Asset, price: Price, x: Asset)
    requires WellFormed(m) && price.base > 0 && Bit(m, a).Some?
    ensures var (m', gathered) := CloseAll(m, a, price);
      && Held(m', x) == Held(m, x) - If(x == Bit(m, a).value.backing, gathered)
      && (x != a ==> Debts(m', x) == Debts(m, x))
    decreases |m.calls|
  {
    if Positions(m, a) != map[] {
      var i := CalledFirst(m, a);
      var c := m.calls[i];
      assert CallOk(m, c);
      var m1 := FillCall(m, i, Seized(c, price), c.debt).0;
      FillCallKeeps(m, i, Seized(c, price), c.debt);
      FillCallFrame(m, i, Seized(c, price), c.debt);
      FillCallHeld(m, i, Seized(c, price), c.debt, x);
      MinusSize(m.calls, i);
      CloseAllHeld(m1, a, price, x);
    }
  }

  predicate SameAsset(m: Market, m': Market, x: Asset)
    requires x in m.assets && x in m'.assets
  {
    m'.assets[x].feePercent == m.assets[x].feePercent && m'.assets[x].bit == m.assets[x].bit && Supply(m', x) == Supply(m, x)
  }

  /** The asset's new terms: settled at what was gathered for what was in circulation. */
  lemma GlobalSettleTerms(m: Market, a: Asset, price: Price)
    requires WellFormed(m) && price.base > 0 && Unsettled(m, a) && m.assets[a].supply > 0
    ensures var m' := GlobalSettle(m, a, price);
      var gathered := CloseAll(m, a, price).1;
      && SameLedger(m, m') && m'.assets.Keys == m.assets.Keys
      && (forall x :: x in m.assets && x != a ==> SameAsset(m, m', x))
      && m'.assets[a].feePercent == m.assets[a].feePercent && Supply(m', a) == Supply(m, a)
      && m'.assets[a].bit == Some(Bit(m, a).value.(settlement := Some(Price(m.assets[a].supply, gathered)), fund := gathered))
      && m'.orders == m.orders && m'.settles == m.settles
      && (forall j :: j in m'.calls ==> j in m.calls && m'.calls[j] == m.calls[j] && m.calls[j].owed != a)
  {
    CloseAllKeeps(m, a, price);
    var m1 := CloseAll(m, a, price).0;
    forall j | j in m1.calls ensures m1.calls[j].owed != a {
      assert j in Positions(m1, a) <==> m1.calls[j].owed == a;
    }
  }

  lemma GlobalSettleKeeps(m: Market, a: Asset, price: Price)
    requires WellFormed(m) && price.base > 0 && Unsettled(m, a) && m.assets[a].supply > 0 && Bit(m, a).value.backing != a
    ensures WellFormed(GlobalSettle(m, a, price))
  {
    var m' := GlobalSettle(m, a, price);
    GlobalSettleTerms(m, a, price);
    forall i | i in m'.orders ensures OrderOk(m', m'.orders[i]) { assert OrderOk(m, m.orders[i]); }
    forall i | i in m'.calls ensures CallOk(m', m'.calls[i]) { assert CallOk(m, m.calls[i]); }
    forall i | i in m'.settles ensures SettleOk(m', m'.settles[i]) { assert SettleOk(m, m.settles[i]); }
    forall x | x in m'.assets ensures AssetOk(m', x) { assert AssetOk(m, x); }
  }

  /** Units are where they were, except that what was seized is now in the fund. */
  lemma GlobalSettleHeld(m: Market, a: Asset, price: Price, x: Asset)
    requires WellFormed(m) && price.base > 0 && Unsettled(m, a) && m.assets[a].supply > 0
    ensures Held(GlobalSettle(m, a, price), x) == Held(m, x)
    ensures x != a ==> Debts(GlobalSettle(m, a, price), x) == Debts(m, x)
  {
    CloseAllKeeps(m, a, price);
    CloseAllHeld(m, a, price, x);
    GlobalSettleTerms(m, a, price);
    assert AssetOk(m, a);
    var (m1, gathered) := CloseAll(m, a, price);
    FundHeld(m1, a, m.assets[a].supply, gathered, x);
  }

  /** The fund, empty before, holds what was gathered. */
  lemma FundHeld(m: Market, a: Asset, supply: int, gathered: nat, x: Asset)
    requires Bit(m, a).Some? && Bit(m, a).value.fund == 0
    ensures var m' := WithAsset(m, a, SettledRow(m.assets[a], supply, gathered));
      Held(m', x) == Held(m, x) + If(x == Bit(m, a).value.backing, gathered) && Debts(m', x) == Debts(m, x)
  {
    WithAssetHeld(m, a, SettledRow(m.assets[a], supply, gathered), x);
  }

  /** Global settlement leaves sound books: conserved, solvent, and no debts in the settled asset. */
  lemma GlobalSettleSound(m: Market, a: Asset, price: Price)
    requires Sound.Sound(m) && price.base > 0 && Unsettled(m, a) && m.assets[a].supply > 0 && Bit(m, a).value.backing != a
    ensures var m' := GlobalSettle(m, a, price);
      Sound.Sound(m') && Settled(m', a) && m'.orders == m.orders && m'.settles == m.settles && SameLedger(m, m') && SameFeeds(m, m')
  {
    GlobalSettleKeeps(m, a, price);
    GlobalSettleTerms(m, a, price);
    var m' := GlobalSettle(m, a, price);
    forall x ensures Books(m', x) {
      assert Books(m, x);
      GlobalSettleBooks(m, a, price, x);
    }
  }

  lemma GlobalSettleBooks(m: Market, a: Asset, price: Price, x: Asset)
    requires WellFormed(m) && price.base > 0 && Unsettled(m, a) && m.assets[a].supply > 0
    requires Books(m, x)
    ensures Books(GlobalSettle(m, a, price), x)
  {
    GlobalSettleTerms(m, a, price);
    GlobalSettleHeld(m, a, price, x);
    if x == a {
      FreshlySolvent(GlobalSettle(m, a, price), a, CloseAll(m, a, price).1);
    } else {
      assert x in m.assets ==> SameAsset(m, GlobalSettle(m, a, price), x);
      SameBooks(m, GlobalSettle(m, a, price), x);
    }
  }

  lemma FreshlySolvent(m: Market, a: Asset, gathered: nat)
    requires Settled(m, a) && m.assets[a].supply >= 0
    requires Bit(m, a).value.settlement == Some(Price(m.assets[a].supply, gathered)) && Bit(m, a).value.fund == gathered
    ensures Solvent(m, a) && Backed(m, a)
  {}

  lemma SameBooks(m: Market, m': Market, x: Asset)
    requires Books(m, x) && Bit(m', x) == Bit(m, x) && Supply(m', x) == Supply(m, x)
    requires Held(m', x) == Held(m, x) && Debts(m', x) == Debts(m, x)
    ensures Books(m', x)
  {}

  // ----- black swans ---------------------------------------------------------------------------

  /** A price in the backing asset is no lower than the feed; prices in different assets compare by the
      assets' ids. */
  predicate ReachesFeed(p: Price, b: BitAsset)
    requires b.feed.Some?
  {
    var f := b.feed.value;
    f.quote < b.backing || (f.quote == b.backing && AtLeast(p, f.price))
  }

  /** And no lower than the best bid, if there is one. */
  ghost predicate ReachesBids(m: Market, a: Asset, p: Price)
    requires WellFormed(m) && Bit(m, a).Some?
  {
    var bids := Bids(m, a, Bit(m, a).value.backing);
    BidsRankable(m, a, Bit(m, a).value.backing);
    bids != map[] ==> AtLeast(p, bids[First(bids)])
  }

  /** Debt per collateral of the position called first has reached the best of bids and feed. */
  ghost predicate SwanAt(m: Market, a: Asset)
    requires WellFormed(m) && Bit(m, a).Some? && Positions(m, a) != map[]
  {
    var b := Bit(m, a).value;
    var c := m.calls[CalledFirst(m, a)];
    b.feed.Some? && ReachesFeed(Price(c.debt, c.collateral), b) && ReachesBids(m, a, Price(c.debt, c.collateral))
  }

  /** True once the asset is settled; None when a swan is found where none is allowed, or when there is no
      price to look for because the asset backs itself. */
  ghost function CheckSwan(m: Market, a: Asset, allowed: bool): (r: Option<(Market, bool)>)
    requires WellFormed(m)
  {
    if Bit(m, a).None? then Some((m, false))
    else
      var b := Bit(m, a).value;
      if b.settlement.Some? then Some((m, true))
      else if b.feed.None? then Some((m, false))
      else if b.backing == a then None
      else if Positions(m, a) == map[] || !SwanAt(m, a) then Some((m, false))
      else if !allowed then None
      else
        var c := m.calls[CalledFirst(m, a)];
        assert CallOk(m, c);
        Some((GlobalSettle(m, a, Price(c.debt, c.collateral)), true))
  }

  /** A position in the asset means the asset is in circulation. */
  lemma OwedSupply(m: Market, i: Id)
    requires Sound.Sound(m) && i in m.calls
    ensures var a := m.calls[i].owed;
      Unsettled(m, a) && m.assets[a].supply >= m.calls[i].debt > 0 && Bit(m, a).value.backing != a
  {
    assert CallOk(m, m.calls[i]);
    assert Books(m, m.calls[i].owed);
    DebtAtMostDebts(m, i);
  }

  lemma SwanSettles(m: Market, a: Asset)
    requires Sound.Sound(m) && Positions(m, a) != map[]
    ensures var c := m.calls[CalledFirst(m, a)];
      && c.debt > 0 && Unsettled(m, a) && Bit(m, a).value.backing != a
      && var m' := GlobalSettle(m, a, Price(c.debt, c.collateral));
         Sound.Sound(m') && Settled(m', a) && m'.orders == m.orders && m'.settles == m.settles && SameLedger(m, m') && SameFeeds(m, m')
  {
    var i := CalledFirst(m, a);
    OwedSupply(m, i);
    GlobalSettleSound(m, a, Price(m.calls[i].debt, m.calls[i].collateral));
  }

  lemma CheckSwanSound(m: Market, a: Asset, allowed: bool)
    requires Sound.Sound(m)
    ensures var r := CheckSwan(m, a, allowed);
      && (r.None? ==> !allowed || Askew(m, a))
      && (r.Some? ==> Sound.Sound(r.value.0) && r.value.0.orders == m.orders && r.value.0.settles == m.settles
                      && SameLedger(m, r.value.0) && SameFeeds(m, r.value.0))
      && (r.Some? && !r.value.1 ==> r.value.0 == m && !Settled(m, a))
      && (r.Some? && r.value.1 ==> Settled(r.value.0, a) && (!allowed ==> r.value.0 == m))
  {
    assert a in m.assets ==> AssetOk(m, a);
    if Positions(m, a) != map[] {
      SwanSettles(m, a);
    }
  }
}
