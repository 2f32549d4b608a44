/** What holds of the market between operations. */
module Sound {
  import opened Wrappers
  import opened Constants
  import opened Prices
  import opened Sums
  import opened MarketState
  import opened MarketFill

  // ----- rows -------------------------------------------------------------------------------

  predicate OrderOk(m: Market, o: LimitOrder) {
    o.forSale > 0 && Positive(o.price) && o.sell != o.receive && o.sell in m.assets && o.receive in m.assets
  }

  /** Positions are open only in assets that have not been settled, and in their backing asset. */
  predicate CallOk(m: Market, c: CallOrder) {
    && c.debt > 0 && Positive(c.callPrice)
    && c.owed in m.assets && c.backing in m.assets && c.backing != c.owed
    && m.assets[c.owed].bit.Some?
    && m.assets[c.owed].bit.value.backing == c.backing && m.assets[c.owed].bit.value.settlement.None?
  }

  predicate SettleOk(m: Market, s: Settlement) {
    s.asset in m.assets && m.assets[s.asset].bit.Some?
  }

  /** A feed is never quoted in its own asset. */
  predicate FeedOk(a: Asset, feed: Option<Feed>) {
    feed.Some? ==> Positive(feed.value.price) && feed.value.quote != a
  }

  /** An asset may be said to back itself, but only while nobody owes any of it. */
  predicate BitOk(m: Market, a: Asset, b: BitAsset) {
    && b.backing in m.assets && a != CORE && FeedOk(a, b.feed)
    && (b.settlement.Some? ==> b.backing != a)
    && b.offset <= HUNDRED_PERCENT && b.maxVolume <= HUNDRED_PERCENT
    && (if b.settlement.Some? then b.settlement.value.base > 0 else b.fund == 0)
  }

  predicate AssetOk(m: Market, a: Asset) {
    a in m.assets && m.assets[a].feePercent <= HUNDRED_PERCENT
    && (m.assets[a].bit.Some? ==> BitOk(m, a, m.assets[a].bit.value))
  }

  ghost predicate WellFormed(m: Market) {
    && CORE in m.assets
    && (forall i {:trigger OrderOk(m, m.orders[i])} :: i in m.orders ==> OrderOk(m, m.orders[i]))
    && (forall i {:trigger CallOk(m, m.calls[i])} :: i in m.calls ==> CallOk(m, m.calls[i]))
    && (forall i {:trigger SettleOk(m, m.settles[i])} :: i in m.settles ==> SettleOk(m, m.settles[i]))
    && (forall a {:trigger AssetOk(m, a)} :: a in m.assets ==> AssetOk(m, a))
  }

  // ----- books --------------------------------------------------------------------------------

  function Bit(m: Market, a: Asset): Option<BitAsset> {
    if a in m.assets then m.assets[a].bit else None
  }

  predicate Unsettled(m: Market, a: Asset) {
    Bit(m, a).Some? && Bit(m, a).value.settlement.None?
  }

  predicate Settled(m: Market, a: Asset) {
    Bit(m, a).Some? && Bit(m, a).value.settlement.Some?
  }

  /** What circulates; nothing of an asset that has not been created. */
  function Supply(m: Market, a: Asset): int {
    if a in m.assets then m.assets[a].supply else 0
  }

  /** Every unit in circulation is in somebody's hands, in an order, in a position, in a
      settlement request, among the fees or in a settlement fund. */
  ghost predicate Conserved(m: Market, a: Asset) {
    Held(m, a) == Supply(m, a)
  }

  /** Until global settlement, every unit of a market-issued asset is somebody's debt. */
  ghost predicate Backed(m: Market, a: Asset) {
    Unsettled(m, a) ==> Debts(m, a) == Supply(m, a)
  }

  /** After it, the fund covers every unit still in circulation at the settlement price. */
  predicate Solvent(m: Market, a: Asset) {
    Settled(m, a) ==>
      var b := Bit(m, a).value;
      b.fund * b.settlement.value.base >= Supply(m, a) * b.settlement.value.quote
  }

  ghost predicate Books(m: Market, a: Asset) {
    Conserved(m, a) && Backed(m, a) && Solvent(m, a)
  }

  ghost predicate Sound(m: Market) {
    WellFormed(m) && forall a {:trigger Books(m, a)} :: Books(m, a)
  }

  /** The feed is quoted in something that does not back the asset, or not any more. */
  predicate Askew(m: Market, a: Asset) {
    Unsettled(m, a) && Bit(m, a).value.feed.Some? && Bit(m, a).value.feed.value.quote != Bit(m, a).value.backing
  }

  /** Global settlement changes neither what backs an asset nor its feed. */
  predicate SameFeeds(m: Market, m': Market) {
    && m'.assets.Keys == m.assets.Keys
    && forall x :: x in m.assets ==> SameFeed(m.assets[x].bit, m'.assets[x].bit)
  }

  predicate SameFeed(b: Option<BitAsset>, b': Option<BitAsset>) {
    && (b'.Some? <==> b.Some?)
    && (b.Some? ==> b'.value.backing == b.value.backing && b'.value.feed == b.value.feed
                    && (b'.value.settlement.None? ==> b.value.settlement.None?))
  }

  // ----- supply is never exceeded ---------------------------------------------------------------

  lemma PoolWeight(a: Asset, k: Asset, d: AssetData)
    ensures PoolsIn(a)(k, d) >= 0
  {
    if d.bit.Some? {
      var fund: nat := d.bit.value.fund;
    }
  }

  lemma HeldParts(m: Market, a: Asset)
    ensures SumBy(m.balances, BalanceIn(a)) >= 0 && SumBy(m.orders, SaleIn(a)) >= 0 && SumBy(m.calls, CollateralIn(a)) >= 0
    ensures SumBy(m.settles, SettleIn(a)) >= 0 && SumBy(m.assets, PoolsIn(a)) >= 0 && SumBy(m.pending, PendingIn(a)) >= 0
  {
    SumNonNegative<(Account, Asset), nat>(m.balances, BalanceIn(a));
    SumNonNegative(m.orders, SaleIn(a));
    SumNonNegative(m.calls, CollateralIn(a));
    SumNonNegative(m.settles, SettleIn(a));
    forall j | j in m.assets ensures PoolsIn(a)(j, m.assets[j]) >= 0 { PoolWeight(a, j, m.assets[j]); }
    SumNonNegative(m.assets, PoolsIn(a));
    SumNonNegative<Account, nat>(m.pending, PendingIn(a));
  }

  /** No operation is in progress. */
  predicate Idle(m: Market) {
    m.due.amount == 0
  }

  lemma DebtAtMostDebts(m: Market, i: Id)
    requires i in m.calls
    ensures m.calls[i].debt <= Debts(m, m.calls[i].owed)
  {
    SumAtLeast(m.calls, DebtIn(m.calls[i].owed), i);
  }

  /** An asset is in circulation exactly when some position owes it. */
  lemma SomebodyOwes(m: Market, a: Asset)
    requires WellFormed(m) && Backed(m, a) && Unsettled(m, a)
    ensures Supply(m, a) >= 0
    ensures Supply(m, a) > 0 <==> exists i :: i in m.calls && m.calls[i].owed == a
  {
    SumNonNegative(m.calls, DebtIn(a));
    if Supply(m, a) > 0 {
      var i := SumPositive(m.calls, DebtIn(a));
      assert m.calls[i].owed == a;
    }
    forall i | i in m.calls && m.calls[i].owed == a ensures Supply(m, a) > 0 {
      DebtAtMostDebts(m, i);
      assert CallOk(m, m.calls[i]);
    }
  }

  // ----- well-formedness through the primitive steps -----------------------------------------------

  /** Assets keep their terms; supply and fees may move. */
  predicate SameConfig(m: Market, m': Market) {
    && SameLedger(m, m') && m'.assets.Keys == m.assets.Keys
    && (forall a :: a in m.assets ==> m'.assets[a].feePercent == m.assets[a].feePercent && m'.assets[a].bit == m.assets[a].bit)
  }

  lemma ConfigKeeps(m: Market, m': Market)
    requires WellFormed(m) && SameConfig(m, m')
    requires forall i :: i in m'.orders ==> (i in m.orders && m'.orders[i] == m.orders[i]) || OrderOk(m, m'.orders[i])
    requires forall i :: i in m'.calls ==> (i in m.calls && m'.calls[i] == m.calls[i]) || CallOk(m, m'.calls[i])
    requires forall i :: i in m'.settles ==> (i in m.settles && m'.settles[i] == m.settles[i]) || SettleOk(m, m'.settles[i])
    ensures WellFormed(m')
  {
    forall i | i in m'.orders ensures OrderOk(m', m'.orders[i]) {
      assert OrderOk(m, m'.orders[i]);
    }
    forall i | i in m'.calls ensures CallOk(m', m'.calls[i]) {
      assert CallOk(m, m'.calls[i]);
    }
    forall i | i in m'.settles ensures SettleOk(m', m'.settles[i]) {
      assert SettleOk(m, m'.settles[i]);
    }
    forall a | a in m'.assets ensures AssetOk(m', a) {
      assert AssetOk(m, a);
    }
  }

  lemma FillLimitKeeps(m: Market, id: Id, pays: nat, receives: nat, cull: bool)
    requires WellFormed(m) && id in m.orders && pays <= m.orders[id].forSale && Fees(m, m.orders[id].receive)
    ensures var m' := FillLimit(m, id, pays, receives, cull).0;
      WellFormed(m') && SameConfig(m, m') && SameTerms(m, m')
  {
    var m' := FillLimit(m, id, pays, receives, cull).0;
    FillLimitFrame(m, id, pays, receives, cull);
    FillLimitOrder(m, id, pays, receives, cull);
    assert OrderOk(m, m.orders[id]);
    forall i | i in m'.orders
      ensures (i in m.orders && m'.orders[i] == m.orders[i]) || OrderOk(m, m'.orders[i])
    {
      if i != id { assert i in m.orders; }
    }
    ConfigKeeps(m, m');
  }

  function CallsAfter(calls: map<Id, CallOrder>, i: Id, pays: nat, receives: nat): map<Id, CallOrder>
    requires i in calls && pays <= calls[i].collateral && receives <= calls[i].debt
  {
    var c := calls[i];
    if receives == c.debt then calls - {i}
    else calls[i := c.(debt := c.debt - receives, collateral := c.collateral - pays)]
  }

  lemma FillCallFrame(m: Market, id: Id, pays: nat, receives: nat)
    requires id in m.calls && pays <= m.calls[id].collateral && receives <= m.calls[id].debt
    requires m.calls[id].owed in m.assets
    ensures var (m', filled) := FillCall(m, id, pays, receives);
      var c := m.calls[id];
      && m'.orders == m.orders && m'.settles == m.settles && SameConfig(m, m')
      && (forall a :: a in m.assets ==> Supply(m', a) == Supply(m, a) - If(a == c.owed, receives))
      && (filled <==> receives == c.debt)
      && m'.calls == CallsAfter(m.calls, id, pays, receives)
  {
    var c := m.calls[id];
    var m1 := WithSupply(m, c.owed, m.assets[c.owed].supply - receives);
    SupplyFrame(m, c.owed, m.assets[c.owed].supply - receives);
    CreditFrame(m1, c.borrower, c.backing, c.collateral - pays);
    assert FillCall(m, id, pays, receives).0.assets == m1.assets;
  }

  lemma SupplyFrame(m: Market, b: Asset, x: int)
    requires b in m.assets
    ensures var m' := WithSupply(m, b, x);
      && m' == m.(assets := m'.assets) && SameConfig(m, m')
      && (forall a :: a in m.assets ==> Supply(m', a) == if a == b then x else Supply(m, a))
  {}

  lemma FillCallKeeps(m: Market, id: Id, pays: nat, receives: nat)
    requires WellFormed(m) && id in m.calls && pays <= m.calls[id].collateral && receives <= m.calls[id].debt
    ensures m.calls[id].owed in m.assets && WellFormed(FillCall(m, id, pays, receives).0)
  {
    assert CallOk(m, m.calls[id]);
    FillCallFrame(m, id, pays, receives);
    ConfigKeeps(m, FillCall(m, id, pays, receives).0);
  }
}
