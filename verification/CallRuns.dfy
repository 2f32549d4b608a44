/** Who is called in a margin call run, by whom, and when it ends. */
module CallRuns {
  import opened Wrappers
  import opened Arithmetic
  import opened Prices
  import opened MarketState
  import opened Sound
  import opened Ranking
  import opened MarginCalls
  import opened MarginLoop
  import opened Effects
  import opened GlobalSettlement
  import opened CheckCalls

  // ----- swans ------------------------------------------------------------------------------------------

  /** No position in the asset has a lower call price, which is collateral per debt, and none with as low a one is older. */
  ghost predicate FirstCalled(m: Market, a: Asset, i: Id) {
    && i in m.calls && m.calls[i].owed == a
    && forall j :: j in m.calls && m.calls[j].owed == a ==> LowerCall(m.calls[i].callPrice, i, m.calls[j].callPrice, j)
  }

  predicate LowerCall(p: Price, i: Id, q: Price, j: Id) {
    && p.base * q.quote <= q.base * p.quote
    && (p.base * q.quote == q.base * p.quote ==> i <= j)
  }

  /** Its collateral is worth no more than its debt: at the feed, unless that is quoted in an older asset, and to
      every bid. */
  ghost predicate SwanNow(m: Market, a: Asset, i: Id) {
    && FirstCalled(m, a, i) && Bit(m, a).Some? && Bit(m, a).value.feed.Some?
    && var c, b := m.calls[i], Bit(m, a).value;
       && (b.feed.value.quote < b.backing || (b.feed.value.quote == b.backing && NoBetter(c, b.feed.value.price)))
       && forall j :: j in m.orders && m.orders[j].sell == a && m.orders[j].receive == b.backing ==> NoBetter(c, m.orders[j].price)
  }

  /** At a price, units owed per unit of collateral, the collateral comes to no more than the debt. */
  predicate NoBetter(c: CallOrder, p: Price) {
    c.collateral * p.base <= c.debt * p.quote
  }

  ghost predicate SomeSwan(m: Market, a: Asset) {
    exists i :: SwanNow(m, a, i)
  }

  lemma FirstIsCalled(m: Market, a: Asset)
    requires WellFormed(m) && Positions(m, a) != map[]
    ensures FirstCalled(m, a, CalledFirst(m, a))
  {
    var i := CalledFirst(m, a);
    forall j | j in m.calls && m.calls[j].owed == a ensures LowerCall(m.calls[i].callPrice, i, m.calls[j].callPrice, j) {
      assert Ahead(Positions(m, a), i, j);
    }
  }

  lemma OneIsFirst(m: Market, a: Asset, i: Id)
    requires WellFormed(m) && FirstCalled(m, a, i)
    ensures Positions(m, a) != map[] && CalledFirst(m, a) == i
  {
    assert i in Positions(m, a);
    FirstIsCalled(m, a);
    var k := CalledFirst(m, a);
    assert LowerCall(m.calls[i].callPrice, i, m.calls[k].callPrice, k);
    assert LowerCall(m.calls[k].callPrice, k, m.calls[i].callPrice, i);
  }

  lemma BidsReachedIff(m: Market, a: Asset, c: CallOrder)
    requires WellFormed(m) && Bit(m, a).Some? && c.debt > 0
    ensures ReachesBids(m, a, Price(c.debt, c.collateral)) <==>
      forall j :: j in m.orders && m.orders[j].sell == a && m.orders[j].receive == Bit(m, a).value.backing ==> NoBetter(c, m.orders[j].price)
  {
    var p := Price(c.debt, c.collateral);
    var bids := Bids(m, a, Bit(m, a).value.backing);
    BidsRankable(m, a, Bit(m, a).value.backing);
    if bids != map[] {
      var k := First(bids);
      forall j | j in bids && AtLeast(p, bids[k]) ensures NoBetter(c, m.orders[j].price) {
        assert Ahead(bids, k, j);
        AtLeastTransitive(p, bids[k], bids[j]);
      }
    } else {
      assert forall j :: j in m.orders && m.orders[j].sell == a && m.orders[j].receive == Bit(m, a).value.backing ==> j in bids;
    }
  }

  lemma SwanAtIff(m: Market, a: Asset)
    requires WellFormed(m) && Bit(m, a).Some? && Bit(m, a).value.feed.Some?
    ensures SomeSwan(m, a) <==> Positions(m, a) != map[] && SwanAt(m, a)
    ensures SomeSwan(m, a) ==> SwanNow(m, a, CalledFirst(m, a))
  {
    if k :| SwanNow(m, a, k) { OneIsFirst(m, a, k); }
    if Positions(m, a) != map[] {
      var i := CalledFirst(m, a);
      FirstIsCalled(m, a);
      assert CallOk(m, m.calls[i]);
      BidsReachedIff(m, a, m.calls[i]);
      assert SwanAt(m, a) <==> SwanNow(m, a, i);
    }
  }

  /** The asset is settled at the position's own debt for its own collateral. */
  ghost predicate SettledBySwan(m: Market, m': Market, a: Asset) {
    exists i, pays :: SwanNow(m, a, i) && SettledAt(m, m', a, Price(m.calls[i].debt, m.calls[i].collateral), pays)
  }

  /** The check finds the asset settled, or a swan, which settles it where that is allowed. It throws on a swan that is
      not allowed, and where an asset with a feed backs itself. */
  ghost predicate SwanChecked(m: Market, a: Asset, allowed: bool, r: Option<(Market, bool)>) {
    if Bit(m, a).None? then r == Some((m, false))
    else if Bit(m, a).value.settlement.Some? then r == Some((m, true))
    else if Bit(m, a).value.feed.None? then r == Some((m, false))
    else if Bit(m, a).value.backing == a then r.None?
    else if !SomeSwan(m, a) then r == Some((m, false))
    else if !allowed then r.None?
    else r.Some? && r.value.1 && SettledBySwan(m, r.value.0, a)
  }

  lemma CheckSwanEffect(m: Market, a: Asset, allowed: bool)
    requires Sound.Sound(m)
    ensures SwanChecked(m, a, allowed, CheckSwan(m, a, allowed))
  {
    if Bit(m, a).Some? && Bit(m, a).value.feed.Some? && Bit(m, a).value.settlement.None? {
      SwanAtIff(m, a);
      if SomeSwan(m, a) {
        var i := CalledFirst(m, a);
        OwedSupply(m, i);
        var pays := GlobalSettlePays(m, a, Price(m.calls[i].debt, m.calls[i].collateral));
      }
    }
  }

  // ----- calls ------------------------------------------------------------------------------------------

  /** A bid for the collateral that the cursor has not passed, and that pays no more than the squeeze price allows. */
  predicate Seen(m: Market, a: Asset, passed: set<Id>, j: Id)
    requires Live(m, a)
  {
    var b, f := Bit(m, a).value, Bit(m, a).value.feed.value;
    && j in m.orders && m.orders[j].sell == a && m.orders[j].receive == b.backing && j !in passed
    && (f.quote < b.backing || f.squeeze.base * m.orders[j].price.quote <= m.orders[j].price.base * f.squeeze.quote)
  }

  /** Of the bids seen none offers more for less, and none that offers as much is older. */
  ghost predicate BestSeen(m: Market, a: Asset, passed: set<Id>, j: Id)
    requires Live(m, a)
  {
    Seen(m, a, passed, j) && forall k :: Seen(m, a, passed, k) ==> BetterOrOlder(m.orders[j].price, j, m.orders[k].price, k)
  }

  /** The first position is called against the best bid: at its call price the feed gives no more for the collateral
      than is owed, nor does the bid. */
  ghost predicate Meets(m: Market, a: Asset, passed: set<Id>, i: Id, j: Id)
    requires Live(m, a)
  {
    && FirstCalled(m, a, i) && BestSeen(m, a, passed, j)
    && var p, f := m.calls[i].callPrice, Bit(m, a).value.feed.value;
       && (f.quote < Bit(m, a).value.backing || p.base * f.price.base <= p.quote * f.price.quote)
       && p.base * m.orders[j].price.base <= p.quote * m.orders[j].price.quote
  }

  /** The collateral pays for the whole debt at the bid's price. */
  predicate Affords(c: CallOrder, p: Price) {
    c.debt * p.quote < (c.collateral + 1) * p.base
  }

  ghost predicate CanCall(m: Market, a: Asset, passed: set<Id>, i: Id, j: Id)
    requires Live(m, a)
  {
    Meets(m, a, passed, i, j) && Affords(m.calls[i], m.orders[j].price)
  }

  /** It does not: a swan at the bid. */
  ghost predicate CannotPay(m: Market, a: Asset, passed: set<Id>)
    requires Live(m, a)
  {
    exists i, j :: Meets(m, a, passed, i, j) && !Affords(m.calls[i], m.orders[j].price)
  }

  /** There are positions, but no bid is seen, and the cursor is on an offer for another asset. */
  ghost predicate Strays(m: Market, a: Asset, passed: set<Id>)
    requires Live(m, a)
  {
    && (exists i :: i in m.calls && m.calls[i].owed == a) && (forall j :: !Seen(m, a, passed, j))
    && exists j :: j in m.orders && IsBeyond(m, a, m.orders[j])
  }

  lemma CursorIsBest(m: Market, a: Asset, passed: set<Id>)
    requires WellFormed(m) && Live(m, a) && InView(m, a, passed) != map[]
    ensures BestSeen(m, a, passed, Cursor(m, a, passed))
  {
    var j := Cursor(m, a, passed);
    forall k | Seen(m, a, passed, k) ensures BetterOrOlder(m.orders[j].price, j, m.orders[k].price, k) {
      assert Ahead(InView(m, a, passed), j, k);
    }
  }

  lemma OneIsBest(m: Market, a: Asset, passed: set<Id>, j: Id)
    requires WellFormed(m) && Live(m, a) && BestSeen(m, a, passed, j)
    ensures InView(m, a, passed) != map[] && Cursor(m, a, passed) == j
  {
    assert j in InView(m, a, passed);
    CursorIsBest(m, a, passed);
    var k := Cursor(m, a, passed);
    assert BetterOrOlder(m.orders[j].price, j, m.orders[k].price, k);
    assert BetterOrOlder(m.orders[k].price, k, m.orders[j].price, j);
  }

  lemma DecideMeets(m: Market, a: Asset, passed: set<Id>, i: Id, j: Id)
    requires WellFormed(m) && Live(m, a) && Meets(m, a, passed, i, j)
    ensures Decide(m, a, passed) == if Affords(m.calls[i], m.orders[j].price) then Call(i, j) else Next.Swan
  {
    OneIsFirst(m, a, i);
    OneIsBest(m, a, passed, j);
    assert OrderOk(m, m.orders[j]);
    var c, o := m.calls[i], m.orders[j];
    FloorIff(c.debt * o.price.quote, o.price.base, c.collateral + 1);
  }

  lemma DecideIs(m: Market, a: Asset, passed: set<Id>)
    requires WellFormed(m) && Live(m, a)
    ensures match Decide(m, a, passed)
      case Wrong => Strays(m, a, passed)
      case Swan => CannotPay(m, a, passed)
      case Call(i, j) => CanCall(m, a, passed, i, j)
      case Stop => !Strays(m, a, passed) && !CannotPay(m, a, passed) && forall i, j :: !CanCall(m, a, passed, i, j)
  {
    if Positions(m, a) == map[] {
      forall i | i in m.calls ensures m.calls[i].owed != a { assert i !in Positions(m, a); }
    } else if InView(m, a, passed) == map[] {
      forall j ensures !Seen(m, a, passed, j) { assert j !in InView(m, a, passed); }
      var i :| i in Positions(m, a);
    } else {
      DecideBest(m, a, passed);
    }
  }

  lemma DecideBest(m: Market, a: Asset, passed: set<Id>)
    requires WellFormed(m) && Live(m, a) && Positions(m, a) != map[] && InView(m, a, passed) != map[]
    ensures match Decide(m, a, passed)
      case Wrong => false
      case Swan => CannotPay(m, a, passed)
      case Call(i, j) => CanCall(m, a, passed, i, j)
      case Stop => !Strays(m, a, passed) && !CannotPay(m, a, passed) && forall i, j :: !CanCall(m, a, passed, i, j)
  {
    var i, j := CalledFirst(m, a), Cursor(m, a, passed);
    FirstIsCalled(m, a);
    CursorIsBest(m, a, passed);
    if Meets(m, a, passed, i, j) {
      DecideMeets(m, a, passed, i, j);
    } else {
      forall i', j' ensures !Meets(m, a, passed, i', j') {
        if Meets(m, a, passed, i', j') { OneIsFirst(m, a, i'); OneIsBest(m, a, passed, j'); }
      }
    }
  }

  // ----- one turn -------------------------------------------------------------------------------------------

  ghost predicate SettledAtFeed(m: Market, m': Market, a: Asset)
    requires Live(m, a)
  {
    exists pays :: SettledAt(m, m', a, Bit(m, a).value.feed.value.price, pays)
  }

  /** What a turn must come to.
      - A swan settles the asset at the position's own terms, and one at a bid at the feed, where that is allowed.
      - The first position and the best bid meet exactly when there is nothing else.
      - Otherwise the run is over. */
  ghost predicate TurnSays(m: Market, a: Asset, passed: set<Id>, called: bool, allowed: bool, t: Turn)
    requires Live(m, a)
  {
    if Settled(m, a) then t == Halt(Some((m, called)))
    else if Bit(m, a).value.backing == a then t == Halt(None)
    else if SomeSwan(m, a) then
      if allowed then t.Halt? && t.result.Some? && t.result.value.1 == called && SettledBySwan(m, t.result.value.0, a)
      else t == Halt(None)
    else if Strays(m, a, passed) then t == Halt(None)
    else if CannotPay(m, a, passed) then
      if allowed && !Askew(m, a) then t.Halt? && t.result.Some? && t.result.value.1 && SettledAtFeed(m, t.result.value.0, a)
      else t == Halt(None)
    else match t
      case Go(i, j) => CanCall(m, a, passed, i, j)
      case Halt(r) => r == Some((m, called)) && forall i, j :: !CanCall(m, a, passed, i, j)
  }

  lemma TurnIs(m: Market, a: Asset, passed: set<Id>, called: bool, allowed: bool, t: Turn)
    requires Sound.Sound(m) && Live(m, a) && t == TakeTurn(m, a, passed, called, allowed)
    ensures TurnSays(m, a, passed, called, allowed, t)
  {
    CheckSwanEffect(m, a, allowed);
    var r := CheckSwan(m, a, allowed);
    if r.Some? && !r.value.1 {
      var next := Decide(m, a, passed);
      DecideIs(m, a, passed);
      DecidedIs(m, a, passed, next, called, allowed, t);
    }
  }

  lemma DecidedIs(m: Market, a: Asset, passed: set<Id>, next: Next, called: bool, allowed: bool, t: Turn)
    requires Sound.Sound(m) && Live(m, a) && t == Decided(m, a, next, called, allowed)
    requires !Settled(m, a) && Bit(m, a).value.backing != a && !SomeSwan(m, a)
    requires match next
      case Wrong => Strays(m, a, passed)
      case Swan => CannotPay(m, a, passed)
      case Call(i, j) => CanCall(m, a, passed, i, j)
      case Stop => !Strays(m, a, passed) && !CannotPay(m, a, passed) && forall i, j :: !CanCall(m, a, passed, i, j)
    ensures TurnSays(m, a, passed, called, allowed, t)
  {
    if next.Swan? {
      var i, j :| Meets(m, a, passed, i, j) && !Affords(m.calls[i], m.orders[j].price);
      OwedSupply(m, i);
      FeedNotZero(m, a);
      var pays := GlobalSettlePays(m, a, Bit(m, a).value.feed.value.price);
    }
    if next.Call? { OnlyOneMeets(m, a, passed, next.position, next.bid); }
  }

  lemma OnlyOneMeets(m: Market, a: Asset, passed: set<Id>, i: Id, j: Id)
    requires WellFormed(m) && Live(m, a) && CanCall(m, a, passed, i, j)
    ensures !Strays(m, a, passed) && !CannotPay(m, a, passed)
  {
    OneIsFirst(m, a, i);
    OneIsBest(m, a, passed, j);
    forall i', j' | Meets(m, a, passed, i', j') ensures Affords(m.calls[i'], m.orders[j'].price) {
      OneIsFirst(m, a, i');
      OneIsBest(m, a, passed, j');
    }
  }

  // ----- a run -----------------------------------------------------------------------------------------------

  /** Between two turns: what the cursor has passed, whether a bid has been used up, and whether anybody was called. */
  datatype Stage = Stage(market: Market, passed: set<Id>, stale: bool, called: bool)

  ghost predicate SomeCall(m: Market, m': Market, i: Id, j: Id) {
    && i in m.calls && j in m.orders && m.calls[i].owed in m.assets && m.orders[j].receive in m.assets
    && exists x, pays, fee, culled :: Called(m, m', i, j, x, pays, fee, culled)
  }

  /** The first position has been called against the best bid. The cursor passes the bid once any bid in the run has been
      used up. */
  ghost predicate CalledOn(s: Stage, s': Stage, a: Asset, i: Id, j: Id)
    requires Live(s.market, a)
  {
    && CanCall(s.market, a, s.passed, i, j) && SomeCall(s.market, s'.market, i, j)
    && s'.stale == (s.stale || s.market.calls[i].debt >= s.market.orders[j].forSale)
    && s'.passed == (if s'.stale then s.passed + {j} else s.passed)
    && s'.called
  }

  ghost predicate Calls(s: Stage, s': Stage, a: Asset) {
    && Live(s.market, a) && !Settled(s.market, a) && !SomeSwan(s.market, a)
    && exists i, j :: CalledOn(s, s', a, i, j)
  }

  /** One call after the other, and then the turn that ends the run. */
  ghost predicate RunOfCalls(ss: seq<Stage>, a: Asset, allowed: bool, s: Stage, r: Option<(Market, bool)>) {
    && |ss| > 0 && ss[0] == s
    && (forall n, n' :: 0 <= n < n' < |ss| && n' == n + 1 ==> Calls(ss[n], ss[n'], a))
    && Ends(ss[|ss| - 1], a, allowed, r)
  }

  ghost predicate Ends(s: Stage, a: Asset, allowed: bool, r: Option<(Market, bool)>) {
    Live(s.market, a) && TurnSays(s.market, a, s.passed, s.called, allowed, Halt(r))
  }

  ghost predicate RunBy(s: Stage, a: Asset, allowed: bool, r: Option<(Market, bool)>) {
    exists ss :: RunOfCalls(ss, a, allowed, s, r)
  }

  lemma NoCall(s: Stage, a: Asset, allowed: bool, r: Option<(Market, bool)>)
    requires Ends(s, a, allowed, r)
    ensures RunBy(s, a, allowed, r)
  {
    assert RunOfCalls([s], a, allowed, s, r);
  }

  lemma OneMoreCall(s: Stage, s1: Stage, a: Asset, allowed: bool, r: Option<(Market, bool)>)
    requires Calls(s, s1, a) && RunBy(s1, a, allowed, r)
    ensures RunBy(s, a, allowed, r)
  {
    var ss :| RunOfCalls(ss, a, allowed, s1, r);
    var all := [s] + ss;
    forall n, n' | 0 <= n < n' < |all| && n' == n + 1 ensures Calls(all[n], all[n'], a) {
      if n > 0 { assert Calls(ss[n - 1], ss[n' - 1], a); }
    }
    assert RunOfCalls(all, a, allowed, s, r);
  }

  /** The place after a call. */
  function Onward(s: Stage, i: Id, j: Id): Stage
    requires Callable(s.market, i, j)
  {
    var used := UsedUp(s.market, i, j, s.stale);
    Stage(Execute(s.market, i, j), if used then s.passed + {j} else s.passed, used, true)
  }

  lemma ExecuteCalls(m: Market, i: Id, j: Id)
    requires Callable(m, i, j)
    ensures SomeCall(m, Execute(m, i, j), i, j)
  {
    var x, pays, fee, culled := ExecuteEffect(m, i, j);
  }

  lemma GoesOnward(s: Stage, a: Asset, allowed: bool, i: Id, j: Id)
    requires Sound.Sound(s.market) && Live(s.market, a) && TakeTurn(s.market, a, s.passed, s.called, allowed) == Go(i, j)
    ensures Callable(s.market, i, j) && Calls(s, Onward(s, i, j), a)
  {
    GoCallable(s.market, a, s.passed, s.called, allowed);
    TurnIs(s.market, a, s.passed, s.called, allowed, Go(i, j));
    ExecuteCalls(s.market, i, j);
    assert CalledOn(s, Onward(s, i, j), a, i, j);
  }

  lemma LoopOnward(s: Stage, a: Asset, allowed: bool, i: Id, j: Id, r: Option<(Market, bool)>)
    requires Sound.Sound(s.market) && Live(s.market, a) && TakeTurn(s.market, a, s.passed, s.called, allowed) == Go(i, j)
    requires r == CallLoop(s.market, a, s.passed, s.stale, s.called, allowed)
    ensures Callable(s.market, i, j)
    ensures var s1 := Onward(s, i, j);
      && Sound.Sound(s1.market) && Live(s1.market, a)
      && |s1.market.calls| + |s1.market.orders| < |s.market.calls| + |s.market.orders|
      && r == CallLoop(s1.market, a, s1.passed, s1.stale, s1.called, allowed)
  {
    GoCallable(s.market, a, s.passed, s.called, allowed);
    ExecuteShrinks(s.market, i, j);
    ExecuteSound(s.market, i, j);
    ExecuteTerms(s.market, i, j);
  }

  lemma {:induction false} CallLoopCalls(s: Stage, a: Asset, allowed: bool, r: Option<(Market, bool)>)
    requires Sound.Sound(s.market) && Live(s.market, a) && r == CallLoop(s.market, a, s.passed, s.stale, s.called, allowed)
    ensures RunBy(s, a, allowed, r)
    decreases |s.market.calls| + |s.market.orders|
  {
    match TakeTurn(s.market, a, s.passed, s.called, allowed)
    case Halt(end) =>
      TurnIs(s.market, a, s.passed, s.called, allowed, Halt(end));
      NoCall(s, a, allowed, r);
    case Go(i, j) =>
      LoopOnward(s, a, allowed, i, j, r);
      GoesOnward(s, a, allowed, i, j);
      CallLoopCalls(Onward(s, i, j), a, allowed, r);
      OneMoreCall(s, Onward(s, i, j), a, allowed, r);
  }

  /** A whole run in one asset: nothing is called in an asset without a feed, in one that is settled, or in a
      prediction market; otherwise one call follows the other until the run must end. */
  ghost predicate CallRun(m: Market, a: Asset, allowed: bool, r: Option<(Market, bool)>) {
    if Bit(m, a).None? then r == Some((m, false))
    else exists swan :: SwanChecked(m, a, allowed, swan) && AfterCheck(m, a, allowed, swan, r)
  }

  ghost predicate AfterCheck(m: Market, a: Asset, allowed: bool, swan: Option<(Market, bool)>, r: Option<(Market, bool)>)
    requires Bit(m, a).Some?
  {
    if swan.None? then r.None?
    else if swan.value.1 then r == Some((swan.value.0, false))
    else if Bit(m, a).value.prediction || !Live(m, a) then r == Some((m, false))
    else RunBy(Stage(m, {}, false, false), a, allowed, r)
  }

  lemma NothingOffered(m: Market, a: Asset, allowed: bool)
    requires WellFormed(m) && Live(m, a) && InView(m, a, {}) == map[] && !Beyond(m, a)
    requires SwanChecked(m, a, allowed, Some((m, false)))
    ensures RunBy(Stage(m, {}, false, false), a, allowed, Some((m, false)))
  {
    forall j ensures !Seen(m, a, {}, j) { assert j !in InView(m, a, {}); }
    assert TurnSays(m, a, {}, false, allowed, Halt(Some((m, false))));
    NoCall(Stage(m, {}, false, false), a, allowed, Some((m, false)));
  }

  lemma CheckCallOrdersCalls(m: Market, a: Asset, allowed: bool)
    requires Sound.Sound(m)
    ensures CallRun(m, a, allowed, CheckCallOrders(m, a, allowed))
  {
    if Bit(m, a).Some? {
      var swan, r := CheckSwan(m, a, allowed), CheckCallOrders(m, a, allowed);
      CheckSwanEffect(m, a, allowed);
      CheckSwanSound(m, a, allowed);
      if swan.Some? && !swan.value.1 {
        assert r == CallIfOffered(m, a, allowed);
        OfferedCalls(m, a, allowed, r);
      }
      assert AfterCheck(m, a, allowed, swan, r);
    }
  }

  lemma OfferedCalls(m: Market, a: Asset, allowed: bool, r: Option<(Market, bool)>)
    requires Sound.Sound(m) && Bit(m, a).Some? && r == CallIfOffered(m, a, allowed)
    requires SwanChecked(m, a, allowed, Some((m, false)))
    ensures AfterCheck(m, a, allowed, Some((m, false)), r)
  {
    if !Bit(m, a).value.prediction && Live(m, a) {
      if InView(m, a, {}) == map[] && !Beyond(m, a) {
        NothingOffered(m, a, allowed);
      } else {
        CallLoopCalls(Stage(m, {}, false, false), a, allowed, r);
      }
    }
  }
}
