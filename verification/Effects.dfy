/** What fills and matches do to every account, order, position and asset, said without naming how they are computed. */
module Effects {
  import opened Arithmetic
  import opened Constants
  import opened Prices
  import opened MarketState
  import opened MarketFill
  import opened Sound
  import opened Ranking
  import opened MarginLoop

  // ----- single writes --------------------------------------------------------------------------

  /** What an account has more of an asset afterwards. */
  function Gain(m: Market, m': Market, who: Account, a: Asset): int {
    Balance(m', who, a) - Balance(m, who, a)
  }

  function Pending(m: Market, who: Account): nat {
    if who in m.pending then m.pending[who] else 0
  }

  /** x units of asset b have come to one account, and nothing to any other. */
  ghost predicate OneGains(m: Market, m': Market, who: Account, b: Asset, x: int) {
    forall v: Account, a: Asset :: Gain(m, m', v, a) == If(v == who && a == b, x)
  }

  ghost predicate TwoGain(m: Market, m': Market, who: Account, b: Asset, x: int, who2: Account, b2: Asset, x2: int) {
    forall v: Account, a: Asset :: Gain(m, m', v, a) == If(v == who && a == b, x) + If(v == who2 && a == b2, x2)
  }

  ghost predicate ThreeGain(m: Market, m': Market, who: Account, b: Asset, x: int, who2: Account, b2: Asset, x2: int,
                            who3: Account, b3: Asset, x3: int) {
    forall v: Account, a: Asset ::
      Gain(m, m', v, a) == If(v == who && a == b, x) + If(v == who2 && a == b2, x2) + If(v == who3 && a == b3, x3)
  }

  ghost predicate PendingGains(m: Market, m': Market, who: Account, x: int) {
    forall v: Account :: Pending(m', v) == Pending(m, v) + If(v == who, x)
  }

  ghost predicate TwoPending(m: Market, m': Market, who: Account, x: int, who2: Account, x2: int) {
    forall v: Account :: Pending(m', v) == Pending(m, v) + If(v == who, x) + If(v == who2, x2)
  }

  lemma PendingTwice(m: Market, m1: Market, m': Market, who: Account, x: int, who2: Account, x2: int)
    requires PendingGains(m, m1, who, x) && PendingGains(m1, m', who2, x2)
    ensures TwoPending(m, m', who, x, who2, x2)
  {
    forall v: Account ensures Pending(m', v) == Pending(m, v) + If(v == who, x) + If(v == who2, x2) {
      assert Pending(m', v) == Pending(m1, v) + If(v == who2, x2);
    }
  }

  lemma OneAndOne(m: Market, m1: Market, m2: Market, m': Market, who: Account, b: Asset, x: int, who2: Account, b2: Asset, x2: int)
    requires OneGains(m, m1, who, b, x) && m2.balances == m1.balances && OneGains(m2, m', who2, b2, x2)
    ensures TwoGain(m, m', who, b, x, who2, b2, x2)
  {
    forall v: Account, a: Asset ensures Gain(m, m', v, a) == If(v == who && a == b, x) + If(v == who2 && a == b2, x2) {
      assert Gain(m, m', v, a) == Gain(m, m1, v, a) + Gain(m2, m', v, a);
    }
  }

  lemma OneAndTwo(m: Market, m1: Market, m': Market, who: Account, b: Asset, x: int, who2: Account, b2: Asset, x2: int,
                  who3: Account, b3: Asset, x3: int)
    requires OneGains(m, m1, who, b, x) && TwoGain(m1, m', who2, b2, x2, who3, b3, x3)
    ensures ThreeGain(m, m', who, b, x, who2, b2, x2, who3, b3, x3)
  {
    forall v: Account, a: Asset
      ensures Gain(m, m', v, a) == If(v == who && a == b, x) + If(v == who2 && a == b2, x2) + If(v == who3 && a == b3, x3)
    {
      assert Gain(m, m', v, a) == Gain(m, m1, v, a) + Gain(m1, m', v, a);
    }
  }

  lemma CreditGains(m: Market, who: Account, b: Asset, x: nat)
    ensures OneGains(m, Credit(m, who, b, x), who, b, x)
  {}

  lemma DebitGains(m: Market, who: Account, b: Asset, x: nat)
    requires x <= Balance(m, who, b)
    ensures OneGains(m, Debit(m, who, b, x), who, b, 0 - x)
  {}

  // ----- fees ---------------------------------------------------------------------------------------

  /** The percentage of the amount, rounded down, but no more than the maximum. */
  predicate IsFee(d: AssetData, x: nat, fee: nat) {
    && fee <= d.maxFee && fee * HUNDRED_PERCENT <= x * d.feePercent
    && (fee < d.maxFee ==> x * d.feePercent < (fee + 1) * HUNDRED_PERCENT)
  }

  lemma FeeIs(d: AssetData, x: nat)
    ensures IsFee(d, x, MarketFee(d, x))
  {
    FloorIs(x * d.feePercent, HUNDRED_PERCENT);
    MulLess(MarketFee(d, x), Percent(x, d.feePercent), HUNDRED_PERCENT);
  }

  /** A fee has come to those an asset has accumulated; nothing else about assets has changed. */
  predicate FeeCame(m: Market, m': Market, b: Asset, fee: nat)
    requires b in m.assets
  {
    m'.assets == m.assets[b := m.assets[b].(fees := m.assets[b].fees + fee)]
  }

  /** Nothing but balances and accumulated fees. */
  predicate SameRows(m: Market, m': Market) {
    && m'.orders == m.orders && m'.calls == m.calls && m'.settles == m.settles
    && m'.pending == m.pending && SameLedger(m, m')
  }

  ghost predicate PaidOut(m: Market, m': Market, who: Account, b: Asset, x: nat, fee: nat)
    requires b in m.assets
  {
    && IsFee(m.assets[b], x, fee) && fee <= x
    && OneGains(m, m', who, b, x - fee) && FeeCame(m, m', b, fee) && SameRows(m, m')
  }

  /** Who is paid gets the amount less the fee. */
  lemma PayOutEffect(m: Market, who: Account, b: Asset, x: nat) returns (fee: nat)
    requires Fees(m, b)
    ensures PaidOut(m, PayOut(m, who, b, x), who, b, x, fee)
  {
    fee := MarketFee(m.assets[b], x);
    FeeIs(m.assets[b], x);
    FeeAtMost(m.assets[b], x);
    FeeAdded(m, b, fee);
    var m1 := AddFees(m, b, fee);
    CreditGains(m1, who, b, x - fee);
    GainsAfter(m, m1, Credit(m1, who, b, x - fee), who, b, x - fee);
  }

  lemma FeeAdded(m: Market, b: Asset, fee: nat)
    requires b in m.assets
    ensures FeeCame(m, AddFees(m, b, fee), b, fee) && SameRows(m, AddFees(m, b, fee)) && AddFees(m, b, fee).balances == m.balances
  {
    assert m.assets[b := m.assets[b]] == m.assets;
  }

  lemma GainsAfter(m: Market, m1: Market, m': Market, who: Account, b: Asset, x: int)
    requires m1.balances == m.balances && OneGains(m1, m', who, b, x)
    ensures OneGains(m, m', who, b, x)
  {
    forall v: Account, a: Asset ensures Gain(m, m', v, a) == If(v == who && a == b, x) {
      assert Gain(m1, m', v, a) == If(v == who && a == b, x);
    }
  }

  // ----- filling a limit order ------------------------------------------------------------------------

  /** What is left of an order asks for less than one unit at its own price. */
  predicate AsksNothing(o: LimitOrder, left: nat) {
    0 < o.price.base && left * o.price.quote < o.price.base
  }

  /** The book when an order has paid: it is gone if nothing is left, or if what is left is culled. */
  function BookAfter(orders: map<Id, LimitOrder>, id: Id, pays: nat, culled: bool): map<Id, LimitOrder>
    requires id in orders && pays <= orders[id].forSale
  {
    var o := orders[id];
    if pays == o.forSale || culled then orders - {id} else orders[id := o.(forSale := o.forSale - pays, deferredFee := 0)]
  }

  /** The seller gets what the order receives, less the fee, and what is left if that is culled. The order's own
      fee goes to the pending ones. */
  ghost predicate LimitFilled(m: Market, m': Market, id: Id, pays: nat, receives: nat, fee: nat, culled: bool)
    requires id in m.orders && pays <= m.orders[id].forSale && m.orders[id].receive in m.assets
  {
    var o := m.orders[id];
    && IsFee(m.assets[o.receive], receives, fee) && fee <= receives && FeeCame(m, m', o.receive, fee)
    && TwoGain(m, m', o.seller, o.receive, receives - fee, o.seller, o.sell, if culled then o.forSale - pays else 0)
    && PendingGains(m, m', o.seller, o.deferredFee)
    && m'.orders == BookAfter(m.orders, id, pays, culled)
    && m'.calls == m.calls && m'.settles == m.settles && SameLedger(m, m')
  }

  lemma FillLimitEffect(m: Market, id: Id, pays: nat, receives: nat, cull: bool) returns (fee: nat, culled: bool)
    requires id in m.orders && pays <= m.orders[id].forSale && Fees(m, m.orders[id].receive)
    ensures culled <==> cull && pays < m.orders[id].forSale && AsksNothing(m.orders[id], m.orders[id].forSale - pays)
    ensures var (m', filled) := FillLimit(m, id, pays, receives, cull);
      LimitFilled(m, m', id, pays, receives, fee, culled) && (filled <==> pays == m.orders[id].forSale || culled)
  {
    var o := m.orders[id];
    var m1 := PayOut(m, o.seller, o.receive, receives);
    fee := PayOutEffect(m, o.seller, o.receive, receives);
    var m2 := AddPending(m1, o.seller, o.deferredFee);
    PendingAdded(m1, o.seller, o.deferredFee);
    culled := TakeFromEffect(m2, id, o, pays, cull);
    FilledTogether(m, m1, m2, TakeFrom(m2, id, o, pays, cull).0, id, pays, receives, fee, culled);
  }

  lemma PendingAdded(m: Market, who: Account, x: nat)
    ensures var m' := AddPending(m, who, x); m' == m.(pending := m'.pending) && PendingGains(m, m', who, x)
  {}

  lemma FilledTogether(m: Market, m1: Market, m2: Market, m': Market, id: Id, pays: nat, receives: nat, fee: nat, culled: bool)
    requires id in m.orders && pays <= m.orders[id].forSale && m.orders[id].receive in m.assets
    requires var o := m.orders[id];
      && PaidOut(m, m1, o.seller, o.receive, receives, fee)
      && m2 == m1.(pending := m2.pending) && PendingGains(m1, m2, o.seller, o.deferredFee)
      && OneGains(m2, m', o.seller, o.sell, if culled then o.forSale - pays else 0)
      && m'.orders == BookAfter(m.orders, id, pays, culled) && m' == m2.(balances := m'.balances, orders := m'.orders)
    ensures LimitFilled(m, m', id, pays, receives, fee, culled)
  {
    var o := m.orders[id];
    OneAndOne(m, m1, m2, m', o.seller, o.receive, receives - fee, o.seller, o.sell, if culled then o.forSale - pays else 0);
    PendingSame(m, m1, m2, m', o.seller, o.deferredFee);
  }

  lemma PendingSame(m: Market, m1: Market, m2: Market, m': Market, who: Account, x: int)
    requires m1.pending == m.pending && PendingGains(m1, m2, who, x) && m'.pending == m2.pending
    ensures PendingGains(m, m', who, x)
  {
    forall v: Account ensures Pending(m', v) == Pending(m, v) + If(v == who, x) {
      assert Pending(m2, v) == Pending(m1, v) + If(v == who, x);
    }
  }

  lemma DustIff(o: LimitOrder)
    ensures Dust(o) <==> AsksNothing(o, o.forSale)
  {
    if o.price.base > 0 { FloorIff(o.forSale * o.price.quote, o.price.base, 1); }
  }

  lemma TakeFromEffect(m: Market, id: Id, o: LimitOrder, pays: nat, cull: bool) returns (culled: bool)
    requires id in m.orders && m.orders[id] == o && pays <= o.forSale
    ensures culled <==> cull && pays < o.forSale && AsksNothing(o, o.forSale - pays)
    ensures var (m', filled) := TakeFrom(m, id, o, pays, cull);
      && (filled <==> pays == o.forSale || culled)
      && OneGains(m, m', o.seller, o.sell, if culled then o.forSale - pays else 0)
      && m'.orders == BookAfter(m.orders, id, pays, culled)
      && m' == m.(balances := m'.balances, orders := m'.orders)
  {
    var rest := o.(forSale := o.forSale - pays, deferredFee := 0);
    DustIff(rest);
    culled := cull && pays < o.forSale && Dust(rest);
    if culled {
      var m1 := WithOrder(m, id, rest);
      CreditGains(m1, o.seller, o.sell, rest.forSale);
      assert m1.orders - {id} == m.orders - {id};
    }
  }

  /** An offer at price p gives more for less than one at price q, or as much and is older. */
  predicate BetterOrOlder(p: Price, k: Id, q: Price, j: Id) {
    && q.base * p.quote <= p.base * q.quote
    && (q.base * p.quote == p.base * q.quote ==> k <= j)
  }

  // ----- two limit orders -------------------------------------------------------------------------------

  /** At the resting order's price, which is so much of what it sells for so much of what it receives, one side is
      used up: the taker, if all it sells is worth no more than all that rests, and otherwise the maker. What the
      other side gives is rounded down. */
  predicate AtMakersPrice(taker: LimitOrder, maker: LimitOrder, x: nat, y: nat) {
    var p := maker.price;
    if taker.forSale * p.base <= maker.forSale * p.quote
    then x == taker.forSale && IsFloor(y, x * p.base, p.quote) && y <= maker.forSale
    else y == maker.forSale && IsFloor(x, y * p.quote, p.base) && x <= taker.forSale
  }

  lemma TradeEffect(taker: LimitOrder, maker: LimitOrder)
    requires Positive(maker.price)
    ensures var (x, y) := Trade(taker, maker); AtMakersPrice(taker, maker, x, y)
  {
    var p := maker.price;
    TradeFits(taker, maker);
    FloorIff(maker.forSale * p.quote, p.base, taker.forSale);
    FloorIs(maker.forSale * p.quote, p.base);
    FloorIs(taker.forSale * p.base, p.quote);
  }

  /** Both sellers get what the other order pays, less fees; nobody else gets anything. */
  ghost predicate Traded(m: Market, m': Market, t: Id, k: Id, x: nat, y: nat, feeT: nat, feeK: nat, culled: bool)
    requires t in m.orders && k in m.orders && t != k
    requires m.orders[t].receive in m.assets && m.orders[k].receive in m.assets
  {
    var o, p := m.orders[t], m.orders[k];
    && AtMakersPrice(o, p, x, y)
    && IsFee(m.assets[o.receive], y, feeT) && feeT <= y && IsFee(m.assets[p.receive], x, feeK) && feeK <= x
    && (culled <==> y < p.forSale && AsksNothing(p, p.forSale - y))
    && ThreeGain(m, m', o.seller, o.receive, y - feeT, p.seller, p.receive, x - feeK, p.seller, p.sell, if culled then p.forSale - y else 0)
    && TwoPending(m, m', o.seller, o.deferredFee, p.seller, p.deferredFee)
    && x <= o.forSale && y <= p.forSale && BooksAfter(m.orders, m'.orders, t, k, x, y, culled)
    && m'.calls == m.calls && m'.settles == m.settles && SameLedger(m, m')
  }

  predicate BooksAfter(orders: map<Id, LimitOrder>, orders': map<Id, LimitOrder>, t: Id, k: Id, x: nat, y: nat, culled: bool)
    requires t in orders && k in orders && t != k && x <= orders[t].forSale && y <= orders[k].forSale
  {
    orders' == BookAfter(BookAfter(orders, t, x, false), k, y, culled)
  }

  lemma MatchEffect(m: Market, t: Id, k: Id) returns (x: nat, y: nat, feeT: nat, feeK: nat, culled: bool)
    requires t in m.orders && k in m.orders && t != k && Positive(m.orders[k].price)
    requires m.orders[t].sell == m.orders[k].receive && m.orders[t].receive == m.orders[k].sell
    requires Fees(m, m.orders[t].sell) && Fees(m, m.orders[t].receive)
    ensures Traded(m, Match(m, t, k).0, t, k, x, y, feeT, feeK, culled)
  {
    var o, p := m.orders[t], m.orders[k];
    TradeFits(o, p);
    TradeEffect(o, p);
    x, y := Trade(o, p).0, Trade(o, p).1;
    var gone;
    feeT, gone := FillLimitEffect(m, t, x, y, false);
    var m1 := FillLimit(m, t, x, y, false).0;
    assert Fees(m1, p.receive) && m1.orders[k] == p;
    feeK, culled := FillLimitEffect(m1, k, y, x, true);
    TradedTogether(m, m1, Match(m, t, k).0, t, k, x, y, feeT, feeK, culled);
  }

  lemma TradedTogether(m: Market, m1: Market, m': Market, t: Id, k: Id, x: nat, y: nat, feeT: nat, feeK: nat, culled: bool)
    requires t in m.orders && k in m.orders && t != k && x <= m.orders[t].forSale && y <= m.orders[k].forSale
    requires m.orders[t].receive in m.assets && m.orders[k].receive in m.assets
    requires AtMakersPrice(m.orders[t], m.orders[k], x, y)
    requires LimitFilled(m, m1, t, x, y, feeT, false) && k in m1.orders && m1.orders[k] == m.orders[k]
    requires LimitFilled(m1, m', k, y, x, feeK, culled)
    requires culled <==> y < m.orders[k].forSale && AsksNothing(m.orders[k], m.orders[k].forSale - y)
    ensures Traded(m, m', t, k, x, y, feeT, feeK, culled)
  {
    var o, p := m.orders[t], m.orders[k];
    TakerGains(m, m1, t, x, y, feeT);
    OneAndTwo(m, m1, m', o.seller, o.receive, y - feeT, p.seller, p.receive, x - feeK, p.seller, p.sell, if culled then p.forSale - y else 0);
    PendingTwice(m, m1, m', o.seller, o.deferredFee, p.seller, p.deferredFee);
    SameFee(m.assets[p.receive], m1.assets[p.receive], x, feeK);
  }

  lemma SameFee(d: AssetData, d': AssetData, x: nat, fee: nat)
    requires d'.feePercent == d.feePercent && d'.maxFee == d.maxFee && IsFee(d', x, fee)
    ensures IsFee(d, x, fee)
  {}

  lemma TakerGains(m: Market, m1: Market, t: Id, x: nat, y: nat, fee: nat)
    requires t in m.orders && x <= m.orders[t].forSale && m.orders[t].receive in m.assets
    requires LimitFilled(m, m1, t, x, y, fee, false)
    ensures OneGains(m, m1, m.orders[t].seller, m.orders[t].receive, y - fee)
  {
    var o := m.orders[t];
    forall v: Account, a: Asset ensures Gain(m, m1, v, a) == If(v == o.seller && a == o.receive, y - fee) {
      assert Gain(m, m1, v, a) == If(v == o.seller && a == o.receive, y - fee) + If(v == o.seller && a == o.sell, 0);
    }
  }

  // ----- a margin position ----------------------------------------------------------------------------------

  /** The positions when one has bought receives units for pays of its collateral. */
  function PositionsAfter(calls: map<Id, CallOrder>, i: Id, pays: nat, receives: nat): map<Id, CallOrder>
    requires i in calls && pays <= calls[i].collateral && receives <= calls[i].debt
  {
    var c := calls[i];
    if receives == c.debt then calls - {i} else calls[i := c.(debt := c.debt - receives, collateral := c.collateral - pays)]
  }

  /** What a position has bought leaves circulation; once its debt is paid, its borrower gets the rest of the collateral. */
  ghost predicate CallFilled(m: Market, m': Market, i: Id, pays: nat, receives: nat)
    requires i in m.calls && pays <= m.calls[i].collateral && receives <= m.calls[i].debt && m.calls[i].owed in m.assets
  {
    var c := m.calls[i];
    && OneGains(m, m', c.borrower, c.backing, if receives == c.debt then c.collateral - pays else 0)
    && m'.calls == PositionsAfter(m.calls, i, pays, receives)
    && m'.assets == m.assets[c.owed := m.assets[c.owed].(supply := m.assets[c.owed].supply - receives)]
    && m'.orders == m.orders && m'.settles == m.settles && m'.pending == m.pending && SameLedger(m, m')
  }

  lemma FillCallEffect(m: Market, i: Id, pays: nat, receives: nat)
    requires i in m.calls && pays <= m.calls[i].collateral && receives <= m.calls[i].debt && m.calls[i].owed in m.assets
    ensures CallFilled(m, FillCall(m, i, pays, receives).0, i, pays, receives)
  {
    var c := m.calls[i];
    var m1 := WithSupply(m, c.owed, m.assets[c.owed].supply - receives);
    Sound.SupplyFrame(m, c.owed, m.assets[c.owed].supply - receives);
    if receives == c.debt { ClosedGains(m, m1, c, i, c.collateral - pays); }
  }

  lemma ClosedGains(m: Market, m1: Market, c: CallOrder, i: Id, x: nat)
    requires m1.balances == m.balances
    ensures var m' := WithoutCall(Credit(m1, c.borrower, c.backing, x), i);
      OneGains(m, m', c.borrower, c.backing, x) && m' == m1.(balances := m'.balances, calls := m1.calls - {i})
  {
    CreditGains(m1, c.borrower, c.backing, x);
    GainsAfter(m, m1, Credit(m1, c.borrower, c.backing, x), c.borrower, c.backing, x);
  }

  lemma PendingFrom(m: Market, m1: Market, m': Market, who: Account, x: int)
    requires m1.pending == m.pending && PendingGains(m1, m', who, x)
    ensures PendingGains(m, m', who, x)
  {
    PendingSame(m, m1, m', m', who, x);
  }

  // ----- a margin call ------------------------------------------------------------------------------------

  /** The position buys what it owes or what is offered, whichever is less, and pays the bid's price for it, rounded
      down. The bidder gets the payment less the fee; the borrower, when the debt is paid, the rest of the collateral. */
  ghost predicate Called(m: Market, m': Market, i: Id, j: Id, x: nat, pays: nat, fee: nat, culled: bool)
    requires i in m.calls && j in m.orders && m.calls[i].owed in m.assets && m.orders[j].receive in m.assets
  {
    var c, o := m.calls[i], m.orders[j];
    && x <= c.debt && x <= o.forSale && (x == c.debt || x == o.forSale)
    && IsFloor(pays, x * o.price.quote, o.price.base) && pays <= c.collateral
    && IsFee(m.assets[o.receive], pays, fee) && fee <= pays
    && (culled <==> x < o.forSale && AsksNothing(o, o.forSale - x))
    && ThreeGain(m, m', c.borrower, c.backing, if x == c.debt then c.collateral - pays else 0,
                 o.seller, o.receive, pays - fee, o.seller, o.sell, if culled then o.forSale - x else 0)
    && PendingGains(m, m', o.seller, o.deferredFee)
    && m'.calls == PositionsAfter(m.calls, i, pays, x) && m'.orders == BookAfter(m.orders, j, x, culled)
    && m'.assets == AssetsAfter(m.assets, c.owed, x, o.receive, fee)
    && m'.settles == m.settles && SameLedger(m, m')
  }

  /** So much less of one asset circulates, and a fee has been accumulated in another. */
  function AssetsAfter(assets: map<Asset, AssetData>, b: Asset, x: nat, d: Asset, fee: nat): map<Asset, AssetData>
    requires b in assets && d in assets
  {
    var less := assets[b := assets[b].(supply := assets[b].supply - x)];
    less[d := less[d].(fees := less[d].fees + fee)]
  }

  lemma ExecuteEffect(m: Market, i: Id, j: Id) returns (x: nat, pays: nat, fee: nat, culled: bool)
    requires Callable(m, i, j)
    ensures Called(m, Execute(m, i, j), i, j, x, pays, fee, culled)
  {
    var c, o := m.calls[i], m.orders[j];
    x, pays := Deal(m, i, j).0, Deal(m, i, j).1;
    NeverOverdrawn(m, i, j);
    FloorIs(x * o.price.quote, o.price.base);
    PaidOffFrame(m, i, j);
    FillCallEffect(m, i, pays, x);
    var m1 := PaidOff(m, i, j);
    fee, culled := FillLimitEffect(m1, j, x, pays, true);
    CalledTogether(m, m1, Execute(m, i, j), i, j, x, pays, fee, culled);
  }

  lemma CalledTogether(m: Market, m1: Market, m': Market, i: Id, j: Id, x: nat, pays: nat, fee: nat, culled: bool)
    requires i in m.calls && j in m.orders && m.calls[i].owed in m.assets && m.orders[j].receive in m.assets
    requires x <= m.calls[i].debt && x <= m.orders[j].forSale && (x == m.calls[i].debt || x == m.orders[j].forSale)
    requires IsFloor(pays, x * m.orders[j].price.quote, m.orders[j].price.base) && pays <= m.calls[i].collateral
    requires CallFilled(m, m1, i, pays, x) && LimitFilled(m1, m', j, x, pays, fee, culled)
    requires culled <==> x < m.orders[j].forSale && AsksNothing(m.orders[j], m.orders[j].forSale - x)
    ensures Called(m, m', i, j, x, pays, fee, culled)
  {
    var c, o := m.calls[i], m.orders[j];
    OneAndTwo(m, m1, m', c.borrower, c.backing, if x == c.debt then c.collateral - pays else 0,
              o.seller, o.receive, pays - fee, o.seller, o.sell, if culled then o.forSale - x else 0);
    SameFee(m.assets[o.receive], m1.assets[o.receive], pays, fee);
    PendingFrom(m, m1, m', o.seller, o.deferredFee);
  }

  // ----- a settlement request ------------------------------------------------------------------------------

  ghost predicate SettleFilled(m: Market, m': Market, k: Id, pays: nat, backing: Asset, receives: nat, fee: nat)
    requires k in m.settles && pays <= m.settles[k].balance && backing in m.assets
  {
    var s := m.settles[k];
    && IsFee(m.assets[backing], receives, fee) && fee <= receives
    && OneGains(m, m', s.owner, backing, receives - fee) && FeeCame(m, m', backing, fee)
    && m'.orders == m.orders && m'.calls == m.calls && m'.pending == m.pending && SameLedger(m, m')
    && m'.settles == (if pays < s.balance then m.settles[k := s.(balance := s.balance - pays)] else m.settles - {k})
  }

  lemma FillSettleEffect(m: Market, k: Id, pays: nat, backing: Asset, receives: nat) returns (fee: nat)
    requires k in m.settles && pays <= m.settles[k].balance && Fees(m, backing)
    ensures SettleFilled(m, FillSettle(m, k, pays, backing, receives).0, k, pays, backing, receives, fee)
  {
    var s := m.settles[k];
    fee := PayOutEffect(m, s.owner, backing, receives);
    var m1 := PayOut(m, s.owner, backing, receives);
    TakeSettledFrame(m1, k, s, pays);
    SettledGains(m, m1, TakeSettled(m1, k, s, pays).0, s.owner, backing, receives - fee);
  }

  lemma SettledGains(m: Market, m1: Market, m': Market, who: Account, b: Asset, x: int)
    requires OneGains(m, m1, who, b, x) && m'.balances == m1.balances
    ensures OneGains(m, m', who, b, x)
  {
    forall v: Account, a: Asset ensures Gain(m, m', v, a) == If(v == who && a == b, x) {
      assert Gain(m, m1, v, a) == If(v == who && a == b, x);
    }
  }

  // ----- cancelling ----------------------------------------------------------------------------------------

  /** The seller gets back what was for sale, and the deferred fee. */
  lemma CancelLimitEffect(m: Market, id: Id)
    requires id in m.orders
    ensures var o, m' := m.orders[id], CancelLimit(m, id);
      TwoGain(m, m', o.seller, o.sell, o.forSale, o.seller, CORE, o.deferredFee)
      && m' == m.(balances := m'.balances, orders := m.orders - {id})
  {
    var o := m.orders[id];
    var m1 := Credit(m, o.seller, o.sell, o.forSale);
    CreditGains(m, o.seller, o.sell, o.forSale);
    CreditGains(m1, o.seller, CORE, o.deferredFee);
    OneAndOne(m, m1, m1, CancelLimit(m, id), o.seller, o.sell, o.forSale, o.seller, CORE, o.deferredFee);
  }

  lemma CancelSettleEffect(m: Market, k: Id)
    requires k in m.settles
    ensures var s, m' := m.settles[k], CancelSettle(m, k);
      OneGains(m, m', s.owner, s.asset, s.balance) && m' == m.(balances := m'.balances, settles := m.settles - {k})
  {
    var s := m.settles[k];
    CreditGains(m, s.owner, s.asset, s.balance);
  }
}
