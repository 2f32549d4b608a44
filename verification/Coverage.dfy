/** No margin position is ever left without collateral. */
module Coverage {
  import opened Wrappers
  import opened Prices
  import opened MarketState
  import opened MarketFill
  import opened Sound
  import opened Ranking
  import opened MarginCalls
  import opened MarginLoop
  import opened CheckCalls
  import opened OrderBook
  import opened ForceSettlement

  ghost predicate Covered(m: Market) {
    forall i :: i in m.calls ==> m.calls[i].collateral > 0
  }

  /** The one position that may have none is the first to be called. */
  ghost predicate CoveredButFirst(m: Market, a: Asset) {
    forall i :: i in m.calls ==> m.calls[i].collateral > 0 || IsFirst(Positions(m, a), i)
  }

  /** A call uses up all collateral and leaves a debt exactly when the bid is smaller than the debt and,
      rounded down, costs all of it. */
  lemma LeftBareIff(m: Market, i: Id, j: Id)
    requires Callable(m, i, j) && m.orders[j].forSale > 0
    ensures var m' := Execute(m, i, j);
      var c, o := m.calls[i], m.orders[j];
      (i in m'.calls && m'.calls[i].collateral == 0) <==> o.forSale < c.debt && ToQuote(o.forSale, o.price) == c.collateral
  {
    ExecuteFrame(m, i, j);
  }

  /** The called position stays first, since its call price is not touched. */
  lemma CallLeaves(m: Market, a: Asset, i: Id, j: Id)
    requires Callable(m, i, j) && m.calls[i].owed == a && IsFirst(Positions(m, a), i) && Covered(m)
    ensures CoveredButFirst(Execute(m, i, j), a)
  {
    ExecuteFrame(m, i, j);
    var m' := Execute(m, i, j);
    forall k | k in m'.calls ensures m'.calls[k].collateral > 0 || IsFirst(Positions(m', a), k) {
      if k == i {
        StillFirst(m, m', a, i);
      } else {
        assert m'.calls[k] == m.calls[k];
      }
    }
  }

  lemma StillFirst(m: Market, m': Market, a: Asset, i: Id)
    requires IsFirst(Positions(m, a), i) && i in Positions(m', a)
    requires forall k :: k in m'.calls ==> k in m.calls && SameCall(m.calls[k], m'.calls[k])
    ensures IsFirst(Positions(m', a), i)
  {
    forall k | k in Positions(m', a) ensures Ahead(Positions(m', a), i, k) {
      assert SameCall(m.calls[k], m'.calls[k]) && SameCall(m.calls[i], m'.calls[i]);
      assert Ahead(Positions(m, a), i, k);
    }
  }

  predicate SameCall(c: CallOrder, c': CallOrder) {
    c'.owed == c.owed && c'.callPrice == c.callPrice
  }

  lemma SettledCovered(m: Market, a: Asset, price: Price)
    requires WellFormed(m) && price.base > 0 && Unsettled(m, a) && m.assets[a].supply > 0 && CoveredButFirst(m, a)
    ensures Covered(GlobalSettle(m, a, price))
  {
    GlobalSettleTerms(m, a, price);
    var m' := GlobalSettle(m, a, price);
    forall i | i in m'.calls ensures m'.calls[i].collateral > 0 {
      assert i !in Positions(m, a);
    }
  }

  /** A position without collateral that is called first is a black swan at any feed that does not protect it. */
  lemma BareSwan(m: Market, a: Asset)
    requires WellFormed(m) && Live(m, a) && Positions(m, a) != map[]
    requires m.calls[CalledFirst(m, a)].collateral == 0
    ensures SwanAt(m, a)
  {}

  lemma SwanCovered(m: Market, a: Asset, allowed: bool)
    requires Sound.Sound(m) && CoveredButFirst(m, a)
    requires Live(m, a)
    ensures var r := CheckSwan(m, a, allowed); r.Some? ==> Covered(r.value.0)
  {
    if Positions(m, a) == map[] {
      NoneFirst(m, a);
    } else {
      var i := CalledFirst(m, a);
      OwedSupply(m, i);
      if SwanAt(m, a) {
        SettledCovered(m, a, Price(m.calls[i].debt, m.calls[i].collateral));
      } else {
        FirstCovered(m, a);
      }
    }
  }

  lemma NoneFirst(m: Market, a: Asset)
    requires CoveredButFirst(m, a) && Positions(m, a) == map[]
    ensures Covered(m)
  {}

  lemma FirstCovered(m: Market, a: Asset)
    requires WellFormed(m) && Live(m, a) && Positions(m, a) != map[]
    requires CoveredButFirst(m, a) && !SwanAt(m, a)
    ensures Covered(m)
  {
    var f := CalledFirst(m, a);
    forall i | i in m.calls ensures m.calls[i].collateral > 0 {
      if m.calls[i].collateral == 0 {
        FirstUnique(Positions(m, a), i, f);
        BareSwan(m, a);
      }
    }
  }

  lemma CoveredTurn(m: Market, a: Asset, passed: set<Id>, called: bool, allowed: bool)
    requires Sound.Sound(m) && Live(m, a) && CoveredButFirst(m, a)
    ensures match TakeTurn(m, a, passed, called, allowed)
      case Halt(r) => r.Some? ==> Covered(r.value.0)
      case Go(i, j) => Callable(m, i, j) && m.calls[i].owed == a && IsFirst(Positions(m, a), i) && Covered(m)
  {
    SwanCovered(m, a, allowed);
    CheckSwanSound(m, a, allowed);
    var r := CheckSwan(m, a, allowed);
    if r.Some? && !r.value.1 {
      DecideCallable(m, a, passed);
      var next := Decide(m, a, passed);
      if next.Swan? {
        SwanByCallCovered(m, a);
      }
    }
  }

  lemma SwanByCallCovered(m: Market, a: Asset)
    requires Sound.Sound(m) && Positions(m, a) != map[] && Live(m, a) && Covered(m)
    ensures Bit(m, a).value.feed.value.price.base > 0 && Covered(GlobalSettle(m, a, Bit(m, a).value.feed.value.price))
  {
    FeedNotZero(m, a);
    OwedSupply(m, CalledFirst(m, a));
    SettledCovered(m, a, Bit(m, a).value.feed.value.price);
  }

  /** A run of margin calls leaves every position covered. */
  lemma {:induction false} CallLoopCovered(m: Market, a: Asset, passed: set<Id>, stale: bool, called: bool, allowed: bool)
    requires Sound.Sound(m) && Live(m, a) && CoveredButFirst(m, a)
    ensures var r := CallLoop(m, a, passed, stale, called, allowed); r.Some? ==> Covered(r.value.0)
    decreases |m.calls| + |m.orders|
  {
    CoveredTurn(m, a, passed, called, allowed);
    GoCallable(m, a, passed, called, allowed);
    match TakeTurn(m, a, passed, called, allowed)
    case Halt(_) =>
    case Go(i, j) =>
      CallSound(m, i, j);
      ExecuteShrinks(m, i, j);
      ExecuteTerms(m, i, j);
      CallLeaves(m, a, i, j);
      var used := UsedUp(m, i, j, stale);
      CallLoopCovered(Execute(m, i, j), a, if used then passed + {j} else passed, used, true, allowed);
  }

  /** Without a feed, or with one that is above all prices, a swan is not seen. */
  lemma NoSwanSeen(m: Market, a: Asset, allowed: bool)
    requires WellFormed(m) && !Live(m, a)
    ensures var r := CheckSwan(m, a, allowed); r.Some? ==> r.value.0 == m
  {}

  lemma CheckCallOrdersCovered(m: Market, a: Asset, allowed: bool)
    requires Sound.Sound(m) && Covered(m)
    ensures var r := CheckCallOrders(m, a, allowed); r.Some? ==> Covered(r.value.0)
  {
    if Live(m, a) {
      SwanCovered(m, a, allowed);
      CheckSwanSound(m, a, allowed);
      CallLoopCovered(m, a, {}, false, false, allowed);
    } else {
      NoSwanSeen(m, a, allowed);
    }
  }

  lemma CheckBothCovered(m: Market, sell: Asset, receive: Asset)
    requires Sound.Sound(m) && Covered(m)
    ensures var r := CheckBoth(m, sell, receive); r.Some? ==> Covered(r.value.0)
  {
    CheckCallOrdersSound(m, sell, true);
    CheckCallOrdersCovered(m, sell, true);
    var r := CheckCallOrders(m, sell, true);
    if r.Some? { CheckCallOrdersCovered(r.value.0, receive, true); }
  }

  lemma {:induction false} MatchLoopCalls(m: Market, id: Id)
    requires Sound.Sound(m)
    ensures MatchLoop(m, id).calls == m.calls
    decreases |m.orders|
  {
    if id in m.orders && Makers(m, id) != map[] {
      var k := BestMaker(m, id);
      CrossingMatchable(m, id, k);
      MatchSound(m, id, k);
      MatchFrame(m, id, k);
      if Match(m, id, k).1 == 2 {
        MatchedSmaller(m, id, k);
        MatchLoopCalls(Match(m, id, k).0, id);
      }
    }
  }

  lemma ApplyRestCovered(m: Market, id: Id, sell: Asset, receive: Asset)
    requires Sound.Sound(m) && Covered(m)
    ensures var r := ApplyRest(m, id, sell, receive); r.Some? ==> Covered(r.value.0)
  {
    MatchLoopSound(m, id);
    MatchLoopCalls(m, id);
    CheckBothCovered(MatchLoop(m, id), sell, receive);
    var r := CheckBoth(MatchLoop(m, id), sell, receive);
    if r.Some? && id in r.value.0.orders {
      CheckBothSound(MatchLoop(m, id), sell, receive);
      CullCalls(r.value.0, id);
    }
  }

  lemma CullCalls(m: Market, id: Id)
    requires WellFormed(m) && id in m.orders
    ensures MaybeCull(m, id).0.calls == m.calls
  {
    CancelLimitKeeps(m, id);
  }

  lemma ApplyOrderCovered(m: Market, id: Id)
    requires Sound.Sound(m) && id in m.orders && Covered(m)
    ensures var r := ApplyOrder(m, id); r.Some? ==> Covered(r.value.0)
  {
    var sell, receive := m.orders[id].sell, m.orders[id].receive;
    CheckBothSound(m, sell, receive);
    CheckBothCovered(m, sell, receive);
    var r := CheckBoth(m, sell, receive);
    if r.Some? { ApplyRestCovered(r.value.0, id, sell, receive); }
  }

  lemma NoFainterCovered(m: Market, m': Market)
    requires Covered(m) && NoFainter(m, m')
    ensures Covered(m')
  {
    forall i | i in m'.calls ensures m'.calls[i].collateral > 0 { assert NoWorse(m.calls[i], m'.calls[i]); }
  }
}
