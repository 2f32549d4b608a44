/** Opening, changing and closing a margin position. */
module UpdateCall {
  import opened Wrappers
  import opened Prices
  import opened MarketState
  import opened MarketFill
  import opened Sound
  import opened Ranking
  import opened CheckCalls
  import opened Coverage
  import opened Operations

  /** Borrow (or pay back) debt units of a market-issued asset, and put in (or take out) collateral. The
      call price that goes with the new amounts is computed elsewhere. */
  datatype Amendment = Amendment(who: Account, asset: Asset, debt: int, collateral: int, callPrice: Price)

  function Adjust(m: Market, who: Account, a: Asset, x: int): Option<Market> {
    if x >= 0 then Some(Credit(m, who, a, x))
    else if Balance(m, who, a) < -x then None
    else Some(Debit(m, who, a, -x))
  }

  lemma AdjustHeld(m: Market, who: Account, b: Asset, x: int, a: Asset)
    ensures var r := Adjust(m, who, b, x);
      r.Some? ==> Held(r.value, a) == Held(m, a) + If(a == b, x) && r.value == m.(balances := r.value.balances)
  {
    if x >= 0 {
      CreditHeld(m, who, b, x, a);
    } else if Balance(m, who, b) >= -x {
      DebitHeld(m, who, b, -x, a);
    }
  }

  /** An asset cannot be borrowed against itself. */
  predicate Open(m: Market, x: Amendment) {
    Unsettled(m, x.asset) && Bit(m, x.asset).value.backing != x.asset
    && var b := Bit(m, x.asset).value;
       if b.prediction then x.collateral == x.debt else b.feed.Some?
  }

  /** The transfers: borrowed units come into circulation, collateral leaves the account. */
  function Exchange(m: Market, x: Amendment): Option<Market>
    requires Open(m, x)
  {
    var m1 :- Adjust(m, x.who, x.asset, x.debt);
    var m2 := WithSupply(m1, x.asset, m1.assets[x.asset].supply + x.debt);
    Adjust(m2, x.who, Bit(m, x.asset).value.backing, -x.collateral)
  }

  lemma ExchangeHeld(m: Market, x: Amendment, a: Asset)
    requires Open(m, x) && Exchange(m, x).Some?
    ensures var m' := Exchange(m, x).value;
      && Held(m', a) == Held(m, a) + If(a == x.asset, x.debt) - If(a == Bit(m, x.asset).value.backing, x.collateral)
      && Debts(m', a) == Debts(m, a)
  {
    var m1 := Adjust(m, x.who, x.asset, x.debt).value;
    AdjustHeld(m, x.who, x.asset, x.debt, a);
    var m2 := WithSupply(m1, x.asset, m1.assets[x.asset].supply + x.debt);
    WithSupplyHeld(m1, x.asset, m1.assets[x.asset].supply + x.debt, a);
    AdjustHeld(m2, x.who, Bit(m, x.asset).value.backing, -x.collateral, a);
  }

  lemma ExchangeFrame(m: Market, x: Amendment)
    requires Open(m, x) && Exchange(m, x).Some?
    ensures var m' := Exchange(m, x).value;
      && SameConfig(m, m') && m'.orders == m.orders && m'.calls == m.calls && m'.settles == m.settles
      && (forall a :: a in m.assets ==> Supply(m', a) == Supply(m, a) + If(a == x.asset, x.debt))
  {
    var m1 := Adjust(m, x.who, x.asset, x.debt).value;
    AdjustFrame(m, x.who, x.asset, x.debt);
    var m2 := WithSupply(m1, x.asset, m1.assets[x.asset].supply + x.debt);
    SupplyFrame(m1, x.asset, x.debt);
    AdjustFrame(m2, x.who, Bit(m, x.asset).value.backing, -x.collateral);
    assert Exchange(m, x) == Adjust(m2, x.who, Bit(m, x.asset).value.backing, -x.collateral);
  }

  lemma SupplyFrame(m: Market, a: Asset, x: int)
    requires a in m.assets
    ensures var m' := WithSupply(m, a, m.assets[a].supply + x);
      && SameConfig(m, m') && m' == m.(assets := m'.assets)
      && (forall b :: b in m.assets ==> Supply(m', b) == Supply(m, b) + If(b == a, x))
  {}

  lemma AdjustFrame(m: Market, who: Account, b: Asset, x: int)
    ensures var r := Adjust(m, who, b, x);
      r.Some? ==> r.value == m.(balances := r.value.balances)
  {}

  predicate IsHis(m: Market, x: Amendment, i: Id) {
    i in m.calls && m.calls[i].borrower == x.who && m.calls[i].owed == x.asset
  }

  /** The index by account and asset allows one position; the first is as good as any. */
  function His(m: Market, x: Amendment): set<Id> {
    set i | i in m.calls && IsHis(m, x, i)
  }

  /** The position the change is about: the account's own in that asset, or a new one. */
  ghost function Position(m: Market, x: Amendment): (i: Id)
    ensures IsHis(m, x, i) || i !in m.calls
    ensures i in m.calls <==> His(m, x) != {}
  {
    if His(m, x) == {} then Later(m.calls.Keys) else Least(His(m, x))
  }

  /** What the position holds and owes so far. */
  function Before(m: Market, x: Amendment, i: Id): CallOrder
    requires Unsettled(m, x.asset)
  {
    if i in m.calls then m.calls[i] else CallOrder(x.who, 0, 0, Bit(m, x.asset).value.backing, x.asset, x.callPrice)
  }

  /** Both amounts end above zero, or both at zero with the position closed. */
  function Changed(m: Market, x: Amendment, i: Id): Option<Market>
    requires Unsettled(m, x.asset)
  {
    var c := Before(m, x, i);
    var debt, collateral := c.debt + x.debt, c.collateral + x.collateral;
    if debt == 0 && collateral == 0 && i in m.calls then Some(WithoutCall(m, i))
    else if debt <= 0 || collateral <= 0 then None
    else Some(WithCall(m, i, c.(debt := debt, collateral := collateral, callPrice := x.callPrice)))
  }

  /** In the books the position moves by exactly the change. */
  lemma ChangedHeld(m: Market, x: Amendment, i: Id, a: Asset)
    requires Unsettled(m, x.asset) && (IsHis(m, x, i) || i !in m.calls) && Changed(m, x, i).Some?
    requires i in m.calls ==> m.calls[i].backing == Bit(m, x.asset).value.backing
    ensures var m' := Changed(m, x, i).value;
      && Held(m', a) == Held(m, a) + If(a == Bit(m, x.asset).value.backing, x.collateral)
      && Debts(m', a) == Debts(m, a) + If(a == x.asset, x.debt)
  {
    var c := Before(m, x, i);
    var m' := Changed(m, x, i).value;
    if i in m'.calls {
      WithCallHeld(m, i, m'.calls[i], a);
    } else {
      WithoutCallHeld(m, i, a);
    }
  }

  lemma ChangedFrame(m: Market, x: Amendment, i: Id)
    requires Unsettled(m, x.asset) && Changed(m, x, i).Some?
    ensures var m' := Changed(m, x, i).value;
      m' == m.(calls := m'.calls) && m'.calls.Keys - {i} == m.calls.Keys - {i}
      && (forall j :: j in m.calls && j != i ==> m'.calls[j] == m.calls[j])
      && (i in m'.calls ==> m'.calls[i].debt > 0 && m'.calls[i].collateral > 0 && m'.calls[i].callPrice == x.callPrice
                            && m'.calls[i].owed == Before(m, x, i).owed && m'.calls[i].backing == Before(m, x, i).backing)
  {}

  /** The exchange and the position together. */
  ghost function Applied(m: Market, x: Amendment): Option<Market>
    requires Open(m, x)
  {
    var m1 :- Exchange(m, x);
    ExchangeFrame(m, x);
    Changed(m1, x, Position(m1, x))
  }

  lemma AppliedKeeps(m: Market, x: Amendment)
    requires WellFormed(m) && Open(m, x) && Positive(x.callPrice) && Applied(m, x).Some?
    ensures WellFormed(Applied(m, x).value)
    ensures var m1 := Exchange(m, x).value;
      Position(m1, x) in m1.calls ==> m1.calls[Position(m1, x)].backing == Bit(m, x.asset).value.backing
  {
    ExchangeFrame(m, x);
    var m1 := Exchange(m, x).value;
    ConfigKeeps(m, m1);
    var i := Position(m1, x);
    ChangedFrame(m1, x, i);
    if i in m1.calls { assert CallOk(m1, m1.calls[i]); }
    var m' := Changed(m1, x, i).value;
    assert AssetOk(m1, x.asset);
    forall j | j in m'.calls ensures (j in m1.calls && m'.calls[j] == m1.calls[j]) || CallOk(m1, m'.calls[j]) {
      if j != i { assert j in m1.calls.Keys - {i}; }
    }
    ConfigKeeps(m1, m');
  }

  /** New debt is new supply, and collateral only changes places. */
  lemma AppliedSound(m: Market, x: Amendment)
    requires Sound.Sound(m) && Open(m, x) && Positive(x.callPrice) && Applied(m, x).Some?
    ensures var m' := Applied(m, x).value;
      Sound.Sound(m') && m'.orders == m.orders && m'.settles == m.settles && SameLedger(m, m')
  {
    AppliedKeeps(m, x);
    ExchangeFrame(m, x);
    var m1 := Exchange(m, x).value;
    var i := Position(m1, x);
    ChangedFrame(m1, x, i);
    var m' := Applied(m, x).value;
    forall a ensures Books(m', a) {
      assert Books(m, a);
      ExchangeHeld(m, x, a);
      ChangedHeld(m1, x, i, a);
      BooksMore(m, m', a, x.asset, x.debt);
    }
  }

  lemma BooksMore(m: Market, m': Market, a: Asset, b: Asset, x: int)
    requires Books(m, a) && Bit(m', a) == Bit(m, a)
    requires Unsettled(m, b)
    requires Held(m', a) == Held(m, a) + If(a == b, x) && Debts(m', a) == Debts(m, a) + If(a == b, x)
    requires Supply(m', a) == Supply(m, a) + If(a == b, x)
    ensures Books(m', a)
  {}

  /** A position that could be called at once must be filled completely; a swan is not allowed. */
  ghost function Checked(m: Market, x: Amendment, i: Id): Option<Market>
    requires WellFormed(m) && Unsettled(m, x.asset)
  {
    var b := Bit(m, x.asset).value;
    if i !in m.calls || b.prediction then Some(m)
    else
      var (m', called) :- CheckCallOrders(m, x.asset, false);
      if called then (if i in m'.calls then None else Some(m'))
      else if i !in m'.calls || b.feed.None? || !Protected(m'.calls[i], b) then None
      else Some(m')
  }

  ghost function Update(m: Market, x: Amendment): Option<Market>
    requires Sound.Sound(m)
  {
    if !Open(m, x) || !Positive(x.callPrice) then None
    else
      var m1 :- Applied(m, x);
      AppliedSound(m, x);
      AppliedTerms(m, x);
      Checked(m1, x, Position(Exchange(m, x).value, x))
  }

  lemma AppliedTerms(m: Market, x: Amendment)
    requires Open(m, x) && Applied(m, x).Some?
    ensures SameConfig(m, Applied(m, x).value) && Unsettled(Applied(m, x).value, x.asset)
  {
    ExchangeFrame(m, x);
    ChangedFrame(Exchange(m, x).value, x, Position(Exchange(m, x).value, x));
  }

  lemma CheckedKeeps(m: Market, x: Amendment, i: Id)
    requires Healthy(m) && Unsettled(m, x.asset)
    ensures Keeps(m, Checked(m, x, i))
  {
    CheckCallOrdersSound(m, x.asset, false);
    CheckCallOrdersCovered(m, x.asset, false);
    var r := CheckCallOrders(m, x.asset, false);
    if r.Some? { ShrunkHealthy(m, r.value.0); }
  }

  /** When nothing was called the position is still there, so that assertion never fires: what decides
      is whether the position is above the feed. */
  lemma NotCalledStays(m: Market, x: Amendment, i: Id)
    requires Sound.Sound(m) && Unsettled(m, x.asset) && i in m.calls && !Bit(m, x.asset).value.prediction
    requires var r := CheckCallOrders(m, x.asset, false); r.Some? && !r.value.1
    ensures CheckCallOrders(m, x.asset, false).value.0 == m
    ensures var b := Bit(m, x.asset).value;
      Checked(m, x, i).Some? <==> b.feed.Some? && Protected(m.calls[i], b)
  {
    CheckCallOrdersSound(m, x.asset, false);
  }

  lemma AppliedCovered(m: Market, x: Amendment)
    requires Covered(m) && Open(m, x) && Applied(m, x).Some?
    ensures Covered(Applied(m, x).value)
  {
    ExchangeFrame(m, x);
    var m1 := Exchange(m, x).value;
    var i, m' := Position(m1, x), Applied(m, x).value;
    ChangedFrame(m1, x, i);
    forall j | j in m'.calls ensures m'.calls[j].collateral > 0 {
      if j != i { assert j in m'.calls.Keys - {i}; }
    }
  }

  lemma UpdateKeeps(m: Market, x: Amendment)
    requires Healthy(m)
    ensures Keeps(m, Update(m, x))
  {
    if Open(m, x) && Positive(x.callPrice) && Applied(m, x).Some? {
      AppliedSound(m, x);
      AppliedTerms(m, x);
      var m1 := Applied(m, x).value;
      AppliedCovered(m, x);
      SameOrdersHealthy(m, m1);
      CheckedKeeps(m1, x, Position(Exchange(m, x).value, x));
    }
  }
}
