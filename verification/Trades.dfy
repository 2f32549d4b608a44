/** The trades of a new order with the book: with whom, at what price and in which order. */
module Trades {
  import opened Wrappers
  import opened MarketState
  import opened MarketFill
  import opened Sound
  import opened Ranking
  import opened Effects
  import opened CheckCalls
  import opened CallRuns
  import opened OrderBook

  /** The one sells what the other asks for, and asks for no more than is offered. */
  predicate Overlap(o: LimitOrder, p: LimitOrder) {
    && o.sell == p.receive && o.receive == p.sell
    && o.price.quote * p.price.quote <= o.price.base * p.price.base
  }

  /** Of the offers that overlap none gives more for less, and none that gives as much is older. */
  ghost predicate BestOffer(m: Market, t: Id, k: Id) {
    && t in m.orders && k in m.orders && t != k && Overlap(m.orders[t], m.orders[k])
    && m.orders[t].receive in m.assets && m.orders[k].receive in m.assets
    && forall j :: j in m.orders && Overlap(m.orders[t], m.orders[j]) ==>
         BetterOrOlder(m.orders[k].price, k, m.orders[j].price, j)
  }

  ghost predicate SomeTrade(m: Market, m': Market, t: Id, k: Id) {
    BestOffer(m, t, k) && exists x, y, feeT, feeK, culled :: Traded(m, m', t, k, x, y, feeT, feeK, culled)
  }

  /** From market to market, each time with the best offer there is. */
  ghost predicate TradesOf(ms: seq<Market>, ks: seq<Id>, t: Id, m: Market, m': Market) {
    && |ms| == |ks| + 1 && ms[0] == m && ms[|ks|] == m'
    && forall i :: 0 <= i < |ks| ==> SomeTrade(ms[i], ms[i + 1], t, ks[i])
  }

  lemma OverlapIff(o: LimitOrder, p: LimitOrder)
    ensures Overlap(o, p) <==> Crosses(o, p)
  {}

  lemma BestMakerIsBest(m: Market, t: Id)
    requires WellFormed(m) && t in m.orders && Makers(m, t) != map[]
    ensures BestOffer(m, t, BestMaker(m, t))
  {
    var k := BestMaker(m, t);
    assert OrderOk(m, m.orders[t]) && OrderOk(m, m.orders[k]);
    forall j | j in m.orders && Overlap(m.orders[t], m.orders[j])
      ensures BetterOrOlder(m.orders[k].price, k, m.orders[j].price, j)
    {
      OverlapIff(m.orders[t], m.orders[j]);
      assert Ahead(Makers(m, t), k, j);
    }
  }

  lemma TradesWithBest(m: Market, t: Id)
    requires WellFormed(m) && t in m.orders && Makers(m, t) != map[]
    ensures Matchable(m, t, BestMaker(m, t)) && SomeTrade(m, Match(m, t, BestMaker(m, t)).0, t, BestMaker(m, t))
  {
    var k := BestMaker(m, t);
    CrossingMatchable(m, t, k);
    BestMakerIsBest(m, t);
    var x, y, feeT, feeK, culled := MatchEffect(m, t, k);
  }

  lemma OneMoreTrade(m: Market, m1: Market, m': Market, ms: seq<Market>, k: Id, ks: seq<Id>, t: Id)
    requires TradesOf(ms, ks, t, m1, m') && SomeTrade(m, m1, t, k)
    ensures TradesOf([m] + ms, [k] + ks, t, m, m')
  {
    var all, makers := [m] + ms, [k] + ks;
    forall i | 0 <= i < |makers| ensures SomeTrade(all[i], all[i + 1], t, makers[i]) {
      if i > 0 { assert SomeTrade(ms[i - 1], ms[i], t, ks[i - 1]); }
    }
  }

  lemma NoTrade(m: Market, t: Id)
    ensures TradesOf([m], [], t, m, m)
  {}

  /** Nothing overlaps with what is left of the order, if anything is. */
  ghost predicate Done(m: Market, t: Id) {
    t in m.orders ==> forall j :: j in m.orders ==> !Overlap(m.orders[t], m.orders[j])
  }

  lemma DoneIff(m: Market, t: Id)
    requires t in m.orders ==> Makers(m, t) == map[]
    ensures Done(m, t)
  {
    forall j | t in m.orders && j in m.orders ensures !Overlap(m.orders[t], m.orders[j]) {
      OverlapIff(m.orders[t], m.orders[j]);
      assert j !in Makers(m, t);
    }
  }

  /** After one trade the order is gone, or the loop goes on with fewer offers. */
  lemma LoopOnce(m: Market, t: Id)
    requires WellFormed(m) && t in m.orders && Makers(m, t) != map[]
    ensures var k := BestMaker(m, t);
      && Matchable(m, t, k) && WellFormed(Match(m, t, k).0)
      && var m1 := Match(m, t, k).0;
         if t in m1.orders then |m1.orders| < |m.orders| && MatchLoop(m, t) == MatchLoop(m1, t) else MatchLoop(m, t) == m1
  {
    var k := BestMaker(m, t);
    CrossingMatchable(m, t, k);
    MatchKeeps(m, t, k);
    MatchResult(m, t, k);
    if Match(m, t, k).1 == 2 { MatchedSmaller(m, t, k); }
  }

  /** A new order trades with one offer after the other, always the best and of equal ones the oldest, at the
      offer's price, until it is used up or nothing overlaps with it any more. */
  lemma {:induction false} MatchLoopTrades(m: Market, t: Id) returns (ms: seq<Market>, ks: seq<Id>)
    requires WellFormed(m)
    ensures TradesOf(ms, ks, t, m, MatchLoop(m, t)) && Done(MatchLoop(m, t), t)
    decreases |m.orders|
  {
    if t !in m.orders || Makers(m, t) == map[] {
      ms, ks := [m], [];
      NoTrade(m, t);
      DoneIff(m, t);
    } else {
      var k := BestMaker(m, t);
      TradesWithBest(m, t);
      LoopOnce(m, t);
      var m1 := Match(m, t, k).0;
      if t in m1.orders {
        ms, ks := MatchLoopTrades(m1, t);
      } else {
        ms, ks := [m1], [];
        NoTrade(m1, t);
      }
      OneMoreTrade(m, m1, MatchLoop(m, t), ms, k, ks, t);
      ms, ks := [m] + ms, [k] + ks;
    }
  }

  // ----- a new order ------------------------------------------------------------------------------------

  /** Margin calls in both assets, the one sold first. */
  ghost predicate BothRuns(m: Market, sell: Asset, receive: Asset, r: Option<(Market, bool)>) {
    exists r1 :: CallRun(m, sell, true, r1) && SecondRun(r1, receive, r)
  }

  ghost predicate SecondRun(r1: Option<(Market, bool)>, receive: Asset, r: Option<(Market, bool)>) {
    if r1.None? then r.None?
    else exists r2 :: CallRun(r1.value.0, receive, true, r2)
           && r == if r2.None? then None else Some((r2.value.0, r1.value.1 || r2.value.1))
  }

  lemma CheckBothRuns(m: Market, sell: Asset, receive: Asset)
    requires Sound.Sound(m)
    ensures BothRuns(m, sell, receive, CheckBoth(m, sell, receive))
  {
    var r1 := CheckCallOrders(m, sell, true);
    CheckCallOrdersCalls(m, sell, true);
    CheckCallOrdersSound(m, sell, true);
    if r1.Some? { CheckCallOrdersCalls(r1.value.0, receive, true); }
    assert SecondRun(r1, receive, CheckBoth(m, sell, receive));
  }

  ghost predicate TradedOut(m: Market, m': Market, id: Id) {
    Done(m', id) && exists ms, ks :: TradesOf(ms, ks, id, m, m')
  }

  /** What is left of the order rests, unless it asks for nothing: then its seller gets it back, and the deferred fee. */
  ghost predicate LastLook(m: Market, id: Id, r: Option<(Market, bool)>) {
    if id !in m.orders then r == Some((m, true))
    else if AsksNothing(m.orders[id], m.orders[id].forSale) then r.Some? && r.value.1 && Returned(m, r.value.0, id)
    else r == Some((m, false))
  }

  ghost predicate Returned(m: Market, m': Market, id: Id)
    requires id in m.orders
  {
    var o := m.orders[id];
    && TwoGain(m, m', o.seller, o.sell, o.forSale, o.seller, CORE, o.deferredFee)
    && m' == m.(balances := m'.balances, orders := m.orders - {id})
  }

  lemma MaybeCullLooks(m: Market, id: Id)
    requires id in m.orders
    ensures LastLook(m, id, Some(MaybeCull(m, id)))
  {
    DustIff(m.orders[id]);
    CancelLimitEffect(m, id);
  }

  /** Trades, margin calls, and the last look. */
  ghost predicate Rested(m: Market, id: Id, sell: Asset, receive: Asset, r: Option<(Market, bool)>) {
    exists m1, r1 :: TradedOut(m, m1, id) && BothRuns(m1, sell, receive, r1) && AfterTrades(id, r1, r)
  }

  ghost predicate AfterTrades(id: Id, r1: Option<(Market, bool)>, r: Option<(Market, bool)>) {
    if r1.None? then r.None? else LastLook(r1.value.0, id, r)
  }

  /** The margin calls that the new order makes possible come first; if they do not use it up, it trades with the book. */
  ghost predicate AppliedBy(m: Market, id: Id, r: Option<(Market, bool)>)
    requires id in m.orders
  {
    var sell, receive := m.orders[id].sell, m.orders[id].receive;
    exists r1 :: BothRuns(m, sell, receive, r1) && AfterCalls(id, sell, receive, r1, r)
  }

  ghost predicate AfterCalls(id: Id, sell: Asset, receive: Asset, r1: Option<(Market, bool)>, r: Option<(Market, bool)>) {
    if r1.None? then r.None?
    else if r1.value.1 && id !in r1.value.0.orders then r == Some((r1.value.0, true))
    else Rested(r1.value.0, id, sell, receive, r)
  }

  lemma ApplyRestRests(m: Market, id: Id, sell: Asset, receive: Asset)
    requires Sound.Sound(m)
    ensures Rested(m, id, sell, receive, ApplyRest(m, id, sell, receive))
  {
    MatchLoopSound(m, id);
    var m1, r := MatchLoop(m, id), ApplyRest(m, id, sell, receive);
    var ms, ks := MatchLoopTrades(m, id);
    assert TradedOut(m, m1, id);
    CheckBothRuns(m1, sell, receive);
    var r1 := CheckBoth(m1, sell, receive);
    if r1.Some? && id in r1.value.0.orders { MaybeCullLooks(r1.value.0, id); }
    assert AfterTrades(id, r1, r);
  }

  /** What becomes of a new order. */
  lemma ApplyOrderApplies(m: Market, id: Id)
    requires Sound.Sound(m) && id in m.orders
    ensures AppliedBy(m, id, ApplyOrder(m, id))
  {
    var sell, receive := m.orders[id].sell, m.orders[id].receive;
    CheckBothRuns(m, sell, receive);
    CheckBothSound(m, sell, receive);
    var r1, r := CheckBoth(m, sell, receive), ApplyOrder(m, id);
    if r1.Some? && !(r1.value.1 && id !in r1.value.0.orders) { ApplyRestRests(r1.value.0, id, sell, receive); }
    assert AfterCalls(id, sell, receive, r1, r);
  }
}
