/** Cancelling and filling orders, and matching two limit orders. */
module MarketFill {
  import opened Arithmetic
  import opened Constants
  import opened Prices
  import opened MarketState

  /** Charged to the receiver, in the asset received. */
  function MarketFee(d: AssetData, x: nat): nat {
    Min(Percent(x, d.feePercent), d.maxFee)
  }

  lemma FeeAtMost(d: AssetData, x: nat)
    requires d.feePercent <= HUNDRED_PERCENT
    ensures MarketFee(d, x) <= x
  {
    PercentAtMost(x, d.feePercent);
  }

  /** Pays an amount out to an account, less the market fee. */
  function PayOut(m: Market, who: Account, a: Asset, x: nat): Market
    requires a in m.assets && m.assets[a].feePercent <= HUNDRED_PERCENT
  {
    FeeAtMost(m.assets[a], x);
    var fee := MarketFee(m.assets[a], x);
    Credit(AddFees(m, a, fee), who, a, x - fee)
  }

  function Refund(m: Market, o: LimitOrder): Market {
    Credit(Credit(m, o.seller, o.sell, o.forSale), o.seller, CORE, o.deferredFee)
  }

  function CancelLimit(m: Market, id: Id): Market
    requires id in m.orders
  {
    var o := m.orders[id];
    WithoutOrder(Refund(m, o), id)
  }

  function CancelSettle(m: Market, id: Id): Market
    requires id in m.settles
  {
    var s := m.settles[id];
    WithoutSettle(Credit(m, s.owner, s.asset, s.balance), id)
  }

  /** An order too small to be worth one unit at its own price. */
  predicate Dust(o: LimitOrder) {
    o.price.base > 0 && ToQuote(o.forSale, o.price) == 0
  }

  /** An order that asks for nothing in return is cancelled. */
  function MaybeCull(m: Market, id: Id): (Market, bool)
    requires id in m.orders
  {
    if Dust(m.orders[id]) then (CancelLimit(m, id), true) else (m, false)
  }

  function FillLimit(m: Market, id: Id, pays: nat, receives: nat, cull: bool): (Market, bool)
    requires id in m.orders && pays <= m.orders[id].forSale
    requires var a := m.orders[id].receive; a in m.assets && m.assets[a].feePercent <= HUNDRED_PERCENT
  {
    var o := m.orders[id];
    TakeFrom(PaySeller(m, o, receives), id, o, pays, cull)
  }

  /** The seller is paid, and the deferred fee with that. */
  function PaySeller(m: Market, o: LimitOrder, receives: nat): Market
    requires o.receive in m.assets && m.assets[o.receive].feePercent <= HUNDRED_PERCENT
  {
    AddPending(PayOut(m, o.seller, o.receive, receives), o.seller, o.deferredFee)
  }

  function TakeFrom(m: Market, id: Id, o: LimitOrder, pays: nat, cull: bool): (Market, bool)
    requires pays <= o.forSale
  {
    if pays == o.forSale then (WithoutOrder(m, id), true)
    else
      var rest := WithOrder(m, id, o.(forSale := o.forSale - pays, deferredFee := 0));
      if cull then MaybeCull(rest, id) else (rest, false)
  }

  /** A position that has paid off its debt gets the rest of its collateral back. */
  function FillCall(m: Market, id: Id, pays: nat, receives: nat): (Market, bool)
    requires id in m.calls && pays <= m.calls[id].collateral && receives <= m.calls[id].debt
    requires m.calls[id].owed in m.assets
  {
    var c := m.calls[id];
    var m1 := WithSupply(m, c.owed, m.assets[c.owed].supply - receives);
    if receives == c.debt
    then (WithoutCall(Credit(m1, c.borrower, c.backing, c.collateral - pays), id), true)
    else (WithCall(m1, id, c.(debt := c.debt - receives, collateral := c.collateral - pays)), false)
  }

  function FillSettle(m: Market, id: Id, pays: nat, backing: Asset, receives: nat): (Market, bool)
    requires id in m.settles && pays <= m.settles[id].balance
    requires backing in m.assets && m.assets[backing].feePercent <= HUNDRED_PERCENT
  {
    var s := m.settles[id];
    TakeSettled(PayOut(m, s.owner, backing, receives), id, s, pays)
  }

  function TakeSettled(m: Market, id: Id, s: Settlement, pays: nat): (Market, bool)
    requires pays <= s.balance
  {
    if pays < s.balance then (WithSettle(m, id, s.(balance := s.balance - pays)), false) else (WithoutSettle(m, id), true)
  }

  // ----- matching two limit orders ------------------------------------------------------------

  /** What taker and maker pay each other at the maker's price. */
  function Trade(taker: LimitOrder, maker: LimitOrder): (t: (nat, nat))
    requires Positive(maker.price)
  {
    if taker.forSale <= ToQuote(maker.forSale, maker.price)
    then (taker.forSale, ToBase(taker.forSale, maker.price))
    else (ToQuote(maker.forSale, maker.price), maker.forSale)
  }

  /** The two offers overlap: the maker asks no more than the taker offers. */
  predicate Crosses(taker: LimitOrder, maker: LimitOrder) {
    && taker.sell == maker.receive && taker.receive == maker.sell
    && !Less(maker.price, Invert(taker.price))
  }

  /** At least one order is used up, and neither pays more than it has. */
  lemma TradeFits(taker: LimitOrder, maker: LimitOrder)
    requires Positive(maker.price)
    ensures var (x, y) := Trade(taker, maker);
      x <= taker.forSale && y <= maker.forSale && (x == taker.forSale || y == maker.forSale)
  {
    if taker.forSale <= ToQuote(maker.forSale, maker.price) {
      ThereAndBack(taker.forSale, maker.forSale, maker.price);
    }
  }

  /** A better price buys no less of anything. */
  lemma BetterPrice(x: nat, p: Price, q: Price)
    requires Positive(p) && Positive(q) && !Less(p, Invert(q))
    ensures ToQuote(x, q) <= ToBase(x, p)
  {
    var f := ToQuote(x, q);
    FloorIff(x * q.quote, q.base, f);
    FloorIff(x * p.base, p.quote, f);
    ScaleBack(f, x, p, q);
  }

  lemma ScaleBack(f: nat, x: nat, p: Price, q: Price)
    requires q.base > 0 && f * q.base <= x * q.quote
    requires p.base * q.base >= q.quote * p.quote
    ensures f * p.quote <= x * p.base
  {
    MulLess(f * q.base, x * q.quote, p.quote);
    MulLess(q.quote * p.quote, p.base * q.base, x);
    var l, r := f * p.quote, x * p.base;
    assert l * q.base == f * q.base * p.quote;
    assert r * q.base == p.base * q.base * x;
    assert x * q.quote * p.quote == q.quote * p.quote * x;
    if l > r { MulLess(r + 1, l, q.base); }
  }

  /** Each side receives at least what its own limit price demands for what it paid, rounded down. */
  lemma TradeFair(taker: LimitOrder, maker: LimitOrder)
    requires Positive(taker.price) && Positive(maker.price) && Crosses(taker, maker)
    ensures var (x, y) := Trade(taker, maker);
      y >= ToQuote(x, taker.price) && x >= ToQuote(y, maker.price)
  {
    var p := maker.price;
    var (x, y) := Trade(taker, maker);
    BetterPrice(x, p, taker.price);
    if taker.forSale <= ToQuote(maker.forSale, p) {
      ThereAndBack(y, x, Invert(p));
      assert ToQuote(y, p) == ToBase(y, Invert(p));
    } else {
      ThereAndBack(x, maker.forSale, p);
    }
  }

  /** 1 when the taker was filled, 2 when the maker was, 3 when both were. */
  function Match(m: Market, taker: Id, maker: Id): (r: (Market, int))
    requires taker in m.orders && maker in m.orders && taker != maker
    requires Positive(m.orders[maker].price)
    requires m.orders[taker].sell == m.orders[maker].receive && m.orders[taker].receive == m.orders[maker].sell
    requires Fees(m, m.orders[taker].sell) && Fees(m, m.orders[taker].receive)
  {
    var t, k := m.orders[taker], m.orders[maker];
    TradeFits(t, k);
    var (x, y) := Trade(t, k);
    FillLimitFrame(m, taker, x, y, false);
    var (m1, f1) := FillLimit(m, taker, x, y, false);
    var (m2, f2) := FillLimit(m1, maker, y, x, true);
    (m2, (if f1 then 1 else 0) + (if f2 then 2 else 0))
  }

  predicate Fees(m: Market, a: Asset) {
    a in m.assets && m.assets[a].feePercent <= HUNDRED_PERCENT
  }

  // ----- what stays as it was -------------------------------------------------------------------

  /** Assets keep everything but their accumulated fees. */
  ghost predicate SameTerms(m: Market, m': Market) {
    && SameLedger(m, m') && m'.assets.Keys == m.assets.Keys
    && (forall a :: a in m.assets ==> m'.assets[a] == m.assets[a].(fees := m'.assets[a].fees))
  }

  /** Only order id may differ. */
  ghost predicate OtherOrders(m: Market, m': Market, id: Id) {
    m'.orders.Keys + {id} == m.orders.Keys + {id} && forall j :: j in m.orders && j != id ==> m'.orders[j] == m.orders[j]
  }

  lemma AddFeesFrame(m: Market, b: Asset, x: nat)
    requires b in m.assets
    ensures var m' := AddFees(m, b, x);
      SameTerms(m, m') && m' == m.(assets := m'.assets)
  {}

  lemma PayOutFrame(m: Market, who: Account, b: Asset, x: nat)
    requires Fees(m, b)
    ensures var m' := PayOut(m, who, b, x);
      SameTerms(m, m') && m'.orders == m.orders && m'.calls == m.calls && m'.settles == m.settles
  {
    var fee := MarketFee(m.assets[b], x);
    FeeAtMost(m.assets[b], x);
    AddFeesFrame(m, b, fee);
    assert PayOut(m, who, b, x) == Credit(AddFees(m, b, fee), who, b, x - fee);
  }

  lemma FillLimitFrame(m: Market, id: Id, pays: nat, receives: nat, cull: bool)
    requires id in m.orders && pays <= m.orders[id].forSale && Fees(m, m.orders[id].receive)
    ensures var m' := FillLimit(m, id, pays, receives, cull).0;
      SameTerms(m, m') && OtherOrders(m, m', id) && m'.calls == m.calls && m'.settles == m.settles
  {
    var o := m.orders[id];
    PaySellerFrame(m, o, receives);
    TakeFromFrame(PaySeller(m, o, receives), id, o, pays, cull);
    FilledFrame(m, PaySeller(m, o, receives), FillLimit(m, id, pays, receives, cull).0, id);
  }

  lemma PaySellerFrame(m: Market, o: LimitOrder, receives: nat)
    requires Fees(m, o.receive)
    ensures var m' := PaySeller(m, o, receives);
      SameTerms(m, m') && m'.orders == m.orders && m'.calls == m.calls && m'.settles == m.settles
  {
    PayOutFrame(m, o.seller, o.receive, receives);
    PendingFrame(PayOut(m, o.seller, o.receive, receives), o.seller, o.deferredFee);
  }

  lemma PendingFrame(m: Market, who: Account, x: nat)
    ensures AddPending(m, who, x) == m.(pending := AddPending(m, who, x).pending)
  {}

  /** The order is gone, or what is left of it stays or is culled. */
  lemma TakeFromFrame(m: Market, id: Id, o: LimitOrder, pays: nat, cull: bool)
    requires pays <= o.forSale
    ensures OrderWritten(m, TakeFrom(m, id, o, pays, cull).0, id)
  {
    if pays != o.forSale {
      MaybeCullFrame(WithOrder(m, id, o.(forSale := o.forSale - pays, deferredFee := 0)), id);
    }
  }

  ghost predicate OrderWritten(m: Market, m': Market, id: Id) {
    SameLedger(m, m') && m'.assets == m.assets && OtherOrders(m, m', id) && m'.calls == m.calls && m'.settles == m.settles
  }

  lemma FilledFrame(m: Market, paid: Market, m': Market, id: Id)
    requires SameTerms(m, paid) && paid.orders == m.orders && paid.calls == m.calls && paid.settles == m.settles
    requires OrderWritten(paid, m', id)
    ensures SameTerms(m, m') && OtherOrders(m, m', id) && m'.calls == m.calls && m'.settles == m.settles
  {}

  lemma MaybeCullFrame(m: Market, id: Id)
    requires id in m.orders
    ensures var m' := MaybeCull(m, id).0;
      SameLedger(m, m') && m'.assets == m.assets && OtherOrders(m, m', id) && m'.calls == m.calls && m'.settles == m.settles
  {
    CancelFrame(m, id);
  }

  lemma CancelFrame(m: Market, id: Id)
    requires id in m.orders
    ensures var m' := CancelLimit(m, id);
      SameLedger(m, m') && m'.assets == m.assets && m'.orders == m.orders - {id} && m'.calls == m.calls && m'.settles == m.settles
  {
    var o := m.orders[id];
    CreditFrame(m, o.seller, o.sell, o.forSale);
    CreditFrame(Credit(m, o.seller, o.sell, o.forSale), o.seller, CORE, o.deferredFee);
    assert CancelLimit(m, id) == WithoutOrder(Refund(m, o), id);
  }

  lemma CreditFrame(m: Market, who: Account, b: Asset, x: nat)
    ensures Credit(m, who, b, x) == m.(balances := Credit(m, who, b, x).balances)
  {}

  /** Filled means gone; otherwise what was paid is taken off, and a culling fill leaves no dust. */
  lemma FillLimitOrder(m: Market, id: Id, pays: nat, receives: nat, cull: bool)
    requires id in m.orders && pays <= m.orders[id].forSale && Fees(m, m.orders[id].receive)
    ensures var (m', filled) := FillLimit(m, id, pays, receives, cull);
      && (filled <==> id !in m'.orders)
      && (pays == m.orders[id].forSale ==> filled)
      && (!filled ==> m'.orders[id] == m.orders[id].(forSale := m.orders[id].forSale - pays, deferredFee := 0))
      && (!filled && cull ==> !Dust(m'.orders[id]))
      && (!cull && filled ==> pays == m.orders[id].forSale)
  {}

  // ----- conservation ------------------------------------------------------------------------------

  lemma PayOutHeld(m: Market, who: Account, b: Asset, x: nat, a: Asset)
    requires Fees(m, b)
    ensures Held(PayOut(m, who, b, x), a) == Held(m, a) + If(a == b, x)
  {
    FeeAtMost(m.assets[b], x);
    var fee := MarketFee(m.assets[b], x);
    AddFeesHeld(m, b, fee, a);
    CreditHeld(AddFees(m, b, fee), who, b, x - fee, a);
  }

  lemma AddFeesHeld(m: Market, b: Asset, x: nat, a: Asset)
    requires b in m.assets
    ensures Held(AddFees(m, b, x), a) == Held(m, a) + If(a == b, x)
  {
    if x > 0 { WithAssetHeld(m, b, m.assets[b].(fees := m.assets[b].fees + x), a); }
  }

  lemma RefundHeld(m: Market, o: LimitOrder, a: Asset)
    ensures Held(Refund(m, o), a) == Held(m, a) + If(a == o.sell, o.forSale) + If(a == CORE, o.deferredFee)
    ensures Refund(m, o).orders == m.orders
  {
    CreditHeld(m, o.seller, o.sell, o.forSale, a);
    CreditHeld(Credit(m, o.seller, o.sell, o.forSale), o.seller, CORE, o.deferredFee, a);
  }

  lemma CancelLimitHeld(m: Market, id: Id, a: Asset)
    requires id in m.orders
    ensures Held(CancelLimit(m, id), a) == Held(m, a)
  {
    var o := m.orders[id];
    RefundHeld(m, o, a);
    WithoutOrderHeld(Refund(m, o), id, a);
  }

  lemma CancelSettleHeld(m: Market, id: Id, a: Asset)
    requires id in m.settles
    ensures Held(CancelSettle(m, id), a) == Held(m, a)
  {
    var s := m.settles[id];
    CreditHeld(m, s.owner, s.asset, s.balance, a);
    WithoutSettleHeld(Credit(m, s.owner, s.asset, s.balance), id, a);
  }

  /** Filling a limit order takes what it pays out of the market's books and adds what it receives. */
  lemma FillLimitHeld(m: Market, id: Id, pays: nat, receives: nat, cull: bool, a: Asset)
    requires id in m.orders && pays <= m.orders[id].forSale && Fees(m, m.orders[id].receive)
    ensures Held(FillLimit(m, id, pays, receives, cull).0, a)
         == Held(m, a) - If(a == m.orders[id].sell, pays) + If(a == m.orders[id].receive, receives)
  {
    var o := m.orders[id];
    PaySellerFrame(m, o, receives);
    PaySellerHeld(m, o, receives, a);
    TakeFromHeld(PaySeller(m, o, receives), id, o, pays, cull, a);
  }

  lemma PaySellerHeld(m: Market, o: LimitOrder, receives: nat, a: Asset)
    requires Fees(m, o.receive)
    ensures Held(PaySeller(m, o, receives), a) == Held(m, a) + If(a == o.receive, receives) + If(a == CORE, o.deferredFee)
  {
    PayOutHeld(m, o.seller, o.receive, receives, a);
    PendingHeld(PayOut(m, o.seller, o.receive, receives), o.seller, o.deferredFee, a);
  }

  /** What is left of an order, with its fee taken. */
  lemma TakeFromHeld(m: Market, id: Id, o: LimitOrder, pays: nat, cull: bool, a: Asset)
    requires id in m.orders && m.orders[id] == o && pays <= o.forSale
    ensures Held(TakeFrom(m, id, o, pays, cull).0, a) == Held(m, a) - If(a == o.sell, pays) - If(a == CORE, o.deferredFee)
  {
    if pays == o.forSale {
      WithoutOrderHeld(m, id, a);
    } else {
      var o' := o.(forSale := o.forSale - pays, deferredFee := 0);
      WithOrderHeld(m, id, o', a);
      MaybeCullHeld(WithOrder(m, id, o'), id, a);
    }
  }

  lemma MaybeCullHeld(m: Market, id: Id, a: Asset)
    requires id in m.orders
    ensures Held(MaybeCull(m, id).0, a) == Held(m, a)
  {
    CancelLimitHeld(m, id, a);
  }

  lemma WithSupplyHeld(m: Market, b: Asset, x: int, a: Asset)
    requires b in m.assets
    ensures Held(WithSupply(m, b, x), a) == Held(m, a) && Debts(WithSupply(m, b, x), a) == Debts(m, a)
  {
    WithAssetHeld(m, b, m.assets[b].(supply := x), a);
  }

  /** Debt that is paid off leaves circulation; collateral that is paid leaves the books. */
  lemma FillCallHeld(m: Market, id: Id, pays: nat, receives: nat, a: Asset)
    requires id in m.calls && pays <= m.calls[id].collateral && receives <= m.calls[id].debt
    requires m.calls[id].owed in m.assets
    ensures var c, m' := m.calls[id], FillCall(m, id, pays, receives).0;
      && Held(m', a) == Held(m, a) - If(a == c.backing, pays)
      && Debts(m', a) == Debts(m, a) - If(a == c.owed, receives)
  {
    var c := m.calls[id];
    var supply := m.assets[c.owed].supply - receives;
    WithSupplyHeld(m, c.owed, supply, a);
    CallPaidHeld(WithSupply(m, c.owed, supply), id, pays, receives, a);
  }

  /** The position is closed or reduced. */
  lemma CallPaidHeld(m: Market, id: Id, pays: nat, receives: nat, a: Asset)
    requires id in m.calls && pays <= m.calls[id].collateral && receives <= m.calls[id].debt
    ensures var c := m.calls[id];
      var m' := if receives == c.debt then WithoutCall(Credit(m, c.borrower, c.backing, c.collateral - pays), id)
                else WithCall(m, id, c.(debt := c.debt - receives, collateral := c.collateral - pays));
      && Held(m', a) == Held(m, a) - If(a == c.backing, pays)
      && Debts(m', a) == Debts(m, a) - If(a == c.owed, receives)
  {
    if receives == m.calls[id].debt { CallClosedHeld(m, id, pays, a); } else { CallReducedHeld(m, id, pays, receives, a); }
  }

  lemma CallReducedHeld(m: Market, id: Id, pays: nat, receives: nat, a: Asset)
    requires id in m.calls && pays <= m.calls[id].collateral && receives <= m.calls[id].debt
    ensures var c := m.calls[id];
      var m' := WithCall(m, id, c.(debt := c.debt - receives, collateral := c.collateral - pays));
      && Held(m', a) == Held(m, a) - If(a == c.backing, pays)
      && Debts(m', a) == Debts(m, a) - If(a == c.owed, receives)
  {
    var c := m.calls[id];
    WithCallHeld(m, id, c.(debt := c.debt - receives, collateral := c.collateral - pays), a);
  }

  lemma CallClosedHeld(m: Market, id: Id, pays: nat, a: Asset)
    requires id in m.calls && pays <= m.calls[id].collateral
    ensures var c := m.calls[id];
      var m' := WithoutCall(Credit(m, c.borrower, c.backing, c.collateral - pays), id);
      && Held(m', a) == Held(m, a) - If(a == c.backing, pays)
      && Debts(m', a) == Debts(m, a) - If(a == c.owed, c.debt)
  {
    var c := m.calls[id];
    CreditMoves(m, c.borrower, c.backing, c.collateral - pays, a);
    CallDroppedHeld(Credit(m, c.borrower, c.backing, c.collateral - pays), id, a);
  }

  lemma CreditMoves(m: Market, who: Account, b: Asset, x: nat, a: Asset)
    ensures var m' := Credit(m, who, b, x);
      Held(m', a) == Held(m, a) + If(a == b, x) && Debts(m', a) == Debts(m, a) && m'.calls == m.calls
  {
    CreditFrame(m, who, b, x);
    CreditHeld(m, who, b, x, a);
  }

  lemma CallDroppedHeld(m: Market, id: Id, a: Asset)
    requires id in m.calls
    ensures var c := m.calls[id];
      && Held(WithoutCall(m, id), a) == Held(m, a) - If(a == c.backing, c.collateral)
      && Debts(WithoutCall(m, id), a) == Debts(m, a) - If(a == c.owed, c.debt)
  {
    WithoutCallHeld(m, id, a);
  }

  lemma FillSettleHeld(m: Market, id: Id, pays: nat, backing: Asset, receives: nat, a: Asset)
    requires id in m.settles && pays <= m.settles[id].balance && Fees(m, backing)
    ensures Held(FillSettle(m, id, pays, backing, receives).0, a)
         == Held(m, a) - If(a == m.settles[id].asset, pays) + If(a == backing, receives)
  {
    var s := m.settles[id];
    PayOutFrame(m, s.owner, backing, receives);
    PayOutHeld(m, s.owner, backing, receives, a);
    TakeSettledHeld(PayOut(m, s.owner, backing, receives), id, s, pays, a);
  }

  lemma TakeSettledFrame(m: Market, id: Id, s: Settlement, pays: nat)
    requires pays <= s.balance
    ensures var m' := TakeSettled(m, id, s, pays).0;
      m' == m.(settles := if pays < s.balance then m.settles[id := s.(balance := s.balance - pays)] else m.settles - {id})
  {}

  lemma TakeSettledHeld(m: Market, id: Id, s: Settlement, pays: nat, a: Asset)
    requires id in m.settles && m.settles[id] == s && pays <= s.balance
    ensures Held(TakeSettled(m, id, s, pays).0, a) == Held(m, a) - If(a == s.asset, pays)
  {
    if pays < s.balance {
      WithSettleHeld(m, id, s.(balance := s.balance - pays), a);
    } else {
      WithoutSettleHeld(m, id, a);
    }
  }

  /** A match moves units between the two sides and creates none. */
  lemma MatchHeld(m: Market, taker: Id, maker: Id, a: Asset)
    requires taker in m.orders && maker in m.orders && taker != maker
    requires Positive(m.orders[maker].price)
    requires m.orders[taker].sell == m.orders[maker].receive && m.orders[taker].receive == m.orders[maker].sell
    requires Fees(m, m.orders[taker].sell) && Fees(m, m.orders[taker].receive)
    ensures Held(Match(m, taker, maker).0, a) == Held(m, a)
  {
    var t, k := m.orders[taker], m.orders[maker];
    TradeFits(t, k);
    var (x, y) := Trade(t, k);
    TakerFilled(m, taker, maker, x, y);
    FillLimitHeld(m, taker, x, y, false, a);
    FillLimitHeld(FillLimit(m, taker, x, y, false).0, maker, y, x, true, a);
  }

  /** Filling the taker leaves the maker as it was. */
  lemma TakerFilled(m: Market, taker: Id, maker: Id, x: nat, y: nat)
    requires taker in m.orders && maker in m.orders && taker != maker && x <= m.orders[taker].forSale
    requires Fees(m, m.orders[taker].receive) && Fees(m, m.orders[maker].receive)
    ensures var m1 := FillLimit(m, taker, x, y, false).0;
      maker in m1.orders && m1.orders[maker] == m.orders[maker] && Fees(m1, m.orders[maker].receive)
  {
    FillLimitFrame(m, taker, x, y, false);
  }

  /** The result says who is gone; somebody always is. */
  lemma MatchResult(m: Market, taker: Id, maker: Id)
    requires taker in m.orders && maker in m.orders && taker != maker
    requires Positive(m.orders[maker].price)
    requires m.orders[taker].sell == m.orders[maker].receive && m.orders[taker].receive == m.orders[maker].sell
    requires Fees(m, m.orders[taker].sell) && Fees(m, m.orders[taker].receive)
    ensures var (m', r) := Match(m, taker, maker);
      && r in {1, 2, 3}
      && (taker in m'.orders <==> r == 2)
      && (maker in m'.orders <==> r == 1)
      && (maker in m'.orders ==> !Dust(m'.orders[maker]))
  {
    var t, k := m.orders[taker], m.orders[maker];
    TradeFits(t, k);
    var (x, y) := Trade(t, k);
    FillLimitFrame(m, taker, x, y, false);
    FillLimitOrder(m, taker, x, y, false);
    var m1 := FillLimit(m, taker, x, y, false).0;
    FillLimitFrame(m1, maker, y, x, true);
    FillLimitOrder(m1, maker, y, x, true);
  }
}
