/** The margin call loop: the position called first against the bid the cursor points at. */
module MarginLoop {
  import opened Prices
  import opened Sums
  import opened MarketState
  import opened MarketFill
  import opened Sound
  import opened Ranking

  /** The position buys what it owes, or what is offered if that is less. */
  function Bought(c: CallOrder, o: LimitOrder): nat {
    if c.debt >= o.forSale then o.forSale else c.debt
  }

  /** Position i has the collateral to pay its whole debt at order j's price. */
  predicate Callable(m: Market, i: Id, j: Id) {
    && i in m.calls && j in m.orders
    && m.orders[j].sell == m.calls[i].owed && m.orders[j].receive == m.calls[i].backing
    && m.calls[i].owed in m.assets && Fees(m, m.calls[i].backing)
    && m.orders[j].price.base > 0
    && ToQuote(m.calls[i].debt, m.orders[j].price) <= m.calls[i].collateral
  }

  /** What the position buys, and what it pays for it. */
  function Deal(m: Market, i: Id, j: Id): (nat, nat)
    requires Callable(m, i, j)
  {
    var x := Bought(m.calls[i], m.orders[j]);
    (x, ToQuote(x, m.orders[j].price))
  }

  /** The assertion on collateral when the position is filled holds, in full and in part. */
  lemma NeverOverdrawn(m: Market, i: Id, j: Id)
    requires Callable(m, i, j)
    ensures var (x, pays) := Deal(m, i, j);
      x <= m.calls[i].debt && x <= m.orders[j].forSale && pays <= m.calls[i].collateral
  {
    ToQuoteMonotone(Bought(m.calls[i], m.orders[j]), m.calls[i].debt, m.orders[j].price);
  }

  /** The position's side of the call. */
  function PaidOff(m: Market, i: Id, j: Id): Market
    requires Callable(m, i, j)
  {
    NeverOverdrawn(m, i, j);
    FillCall(m, i, Deal(m, i, j).1, Deal(m, i, j).0).0
  }

  lemma PaidOffFrame(m: Market, i: Id, j: Id)
    requires Callable(m, i, j)
    ensures var m' := PaidOff(m, i, j);
      var (x, pays) := Deal(m, i, j);
      && SameConfig(m, m') && m'.orders == m.orders && m'.settles == m.settles && Fees(m', m.orders[j].receive)
      && (forall a :: a in m.assets ==> Supply(m', a) == Supply(m, a) - If(a == m.calls[i].owed, x))
      && x <= m.calls[i].debt && pays <= m.calls[i].collateral && m'.calls == CallsAfter(m.calls, i, pays, x)
  {
    NeverOverdrawn(m, i, j);
    FillCallFrame(m, i, Deal(m, i, j).1, Deal(m, i, j).0);
  }

  /** The position buys from the order at the order's price; what is left of the order is culled if small. */
  function Execute(m: Market, i: Id, j: Id): Market
    requires Callable(m, i, j)
  {
    PaidOffFrame(m, i, j);
    NeverOverdrawn(m, i, j);
    FillLimit(PaidOff(m, i, j), j, Deal(m, i, j).0, Deal(m, i, j).1, true).0
  }

  lemma ExecuteKeeps(m: Market, i: Id, j: Id)
    requires WellFormed(m) && Callable(m, i, j)
    ensures WellFormed(Execute(m, i, j))
  {
    PaidOffFrame(m, i, j);
    NeverOverdrawn(m, i, j);
    FillCallKeeps(m, i, Deal(m, i, j).1, Deal(m, i, j).0);
    FillLimitKeeps(PaidOff(m, i, j), j, Deal(m, i, j).0, Deal(m, i, j).1, true);
  }

  lemma ExecuteFrame(m: Market, i: Id, j: Id)
    requires Callable(m, i, j)
    ensures var m' := Execute(m, i, j);
      var (x, pays) := Deal(m, i, j);
      && SameTerms(PaidOff(m, i, j), m') && m'.settles == m.settles
      && x <= m.calls[i].debt && pays <= m.calls[i].collateral && m'.calls == CallsAfter(m.calls, i, pays, x)
  {
    PaidOffFrame(m, i, j);
    NeverOverdrawn(m, i, j);
    FillLimitFrame(PaidOff(m, i, j), j, Deal(m, i, j).0, Deal(m, i, j).1, true);
  }

  lemma ExecuteTerms(m: Market, i: Id, j: Id)
    requires Callable(m, i, j)
    ensures var m' := Execute(m, i, j);
      && SameConfig(m, m')
      && (forall a :: a in m.assets ==> Supply(m', a) == Supply(m, a) - If(a == m.calls[i].owed, Deal(m, i, j).0))
  {
    PaidOffFrame(m, i, j);
    ExecuteFrame(m, i, j);
  }

  /** The order is gone if it was used up; what is left of it is no dust. No other order is touched. */
  lemma ExecuteOrders(m: Market, i: Id, j: Id)
    requires Callable(m, i, j)
    ensures var m' := Execute(m, i, j);
      var o, x := m.orders[j], Deal(m, i, j).0;
      && OtherOrders(m, m', j) && x <= o.forSale
      && (x == o.forSale ==> j !in m'.orders)
      && (j in m'.orders ==> m'.orders[j] == o.(forSale := o.forSale - x, deferredFee := 0) && !Dust(m'.orders[j]))
  {
    PaidOffFrame(m, i, j);
    NeverOverdrawn(m, i, j);
    FillLimitFrame(PaidOff(m, i, j), j, Deal(m, i, j).0, Deal(m, i, j).1, true);
    FillLimitOrder(PaidOff(m, i, j), j, Deal(m, i, j).0, Deal(m, i, j).1, true);
  }

  lemma SameSize<K, V>(m: map<K, V>, m': map<K, V>)
    requires m.Keys == m'.Keys
    ensures |m| == |m'|
  {
    assert |m.Keys| == |m| && |m'.Keys| == |m'|;
  }

  lemma CallsShrink(calls: map<Id, CallOrder>, i: Id, pays: nat, receives: nat)
    requires i in calls && pays <= calls[i].collateral && receives <= calls[i].debt
    ensures var n := |CallsAfter(calls, i, pays, receives)|;
      n <= |calls| && (receives == calls[i].debt ==> n < |calls|)
  {
    MinusSize(calls, i);
    if receives != calls[i].debt {
      SameSize(calls, CallsAfter(calls, i, pays, receives));
    }
  }

  lemma OrdersShrink(m: Market, m': Market, j: Id)
    requires OtherOrders(m, m', j) && j in m.orders
    ensures |m'.orders| <= |m.orders| && (j !in m'.orders ==> |m'.orders| < |m.orders|)
  {
    MinusSize(m.orders, j);
    if j in m'.orders {
      assert m'.orders.Keys == m.orders.Keys;
      SameSize(m.orders, m'.orders);
    } else {
      assert m'.orders.Keys == (m.orders - {j}).Keys;
      SameSize(m.orders - {j}, m'.orders);
    }
  }

  /** Every call removes the position or the order. */
  lemma ExecuteShrinks(m: Market, i: Id, j: Id)
    requires Callable(m, i, j)
    ensures var m' := Execute(m, i, j);
      |m'.calls| + |m'.orders| < |m.calls| + |m.orders|
  {
    ExecuteFrame(m, i, j);
    ExecuteOrders(m, i, j);
    CallsShrink(m.calls, i, Deal(m, i, j).1, Deal(m, i, j).0);
    OrdersShrink(m, Execute(m, i, j), j);
  }

  lemma ExecuteHeld(m: Market, i: Id, j: Id, a: Asset)
    requires Callable(m, i, j)
    ensures var m' := Execute(m, i, j);
      var x := Deal(m, i, j).0;
      && Held(m', a) == Held(m, a) - If(a == m.calls[i].owed, x)
      && Debts(m', a) == Debts(m, a) - If(a == m.calls[i].owed, x)
  {
    var (x, pays) := Deal(m, i, j);
    NeverOverdrawn(m, i, j);
    PaidOffFrame(m, i, j);
    FillCallHeld(m, i, pays, x, a);
    FillLimitFrame(PaidOff(m, i, j), j, x, pays, true);
    FillLimitHeld(PaidOff(m, i, j), j, x, pays, true, a);
  }

  /** x units of the unsettled asset b leave supply, holdings and debts together. */
  lemma BooksLess(m: Market, m': Market, a: Asset, b: Asset, x: nat)
    requires Books(m, a) && Bit(m', a) == Bit(m, a)
    requires Unsettled(m, b)
    requires Held(m', a) == Held(m, a) - If(a == b, x) && Debts(m', a) == Debts(m, a) - If(a == b, x)
    requires Supply(m', a) == Supply(m, a) - If(a == b, x)
    ensures Books(m', a)
  {}

  lemma ExecuteBooks(m: Market, i: Id, j: Id, a: Asset)
    requires Sound.Sound(m) && Callable(m, i, j)
    ensures Books(Execute(m, i, j), a)
  {
    assert Books(m, a) && CallOk(m, m.calls[i]);
    ExecuteTerms(m, i, j);
    ExecuteHeld(m, i, j, a);
    BooksLess(m, Execute(m, i, j), a, m.calls[i].owed, Deal(m, i, j).0);
  }

  /** A margin call keeps the books: the debt bought back leaves supply, holdings and debts alike. */
  lemma ExecuteSound(m: Market, i: Id, j: Id)
    requires Sound.Sound(m) && Callable(m, i, j)
    ensures Sound.Sound(Execute(m, i, j))
  {
    ExecuteKeeps(m, i, j);
    forall a ensures Books(Execute(m, i, j), a) { ExecuteBooks(m, i, j, a); }
  }
}
