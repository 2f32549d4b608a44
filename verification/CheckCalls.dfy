/** check_call_orders: the whole margin call run of one asset. */
module CheckCalls {
  import opened Wrappers
  import opened Prices
  import opened MarketState
  import opened MarketFill
  import opened Sound
  import opened Ranking
  import opened MarginCalls
  import opened MarginLoop

  datatype Next = Stop | Swan | Wrong | Call(position: Id, bid: Id)

  /** Positions can be called in an asset with a feed, unless the feed is quoted in an asset newer than the
      one that backs it: such a feed is above every call price, and protects every position. */
  predicate Live(m: Market, a: Asset) {
    Bit(m, a).Some? && Bit(m, a).value.feed.Some? && Bit(m, a).value.feed.value.quote <= Bit(m, a).value.backing
  }

  /** Bids the cursor has not passed. */
  function InView(m: Market, a: Asset, passed: set<Id>): map<Id, Price>
    requires Live(m, a)
  {
    Squeezable(m, a, Bit(m, a).value) - passed
  }

  lemma InViewRankable(m: Market, a: Asset, passed: set<Id>)
    requires WellFormed(m) && Live(m, a)
    ensures Rankable(InView(m, a, passed))
  {
    BidsRankable(m, a, Bit(m, a).value.backing);
  }

  /** Where the feed is quoted in an asset older than the backing, the cursor goes on after the last bid to
      offers for the assets in between. */
  ghost predicate Beyond(m: Market, a: Asset)
    requires Live(m, a)
  {
    exists i :: i in m.orders && IsBeyond(m, a, m.orders[i])
  }

  predicate IsBeyond(m: Market, a: Asset, o: LimitOrder)
    requires Live(m, a)
  {
    var b, f := Bit(m, a).value, Bit(m, a).value.feed.value;
    && o.sell == a && o.receive < b.backing
    && (f.quote < o.receive || (f.quote == o.receive && AtLeast(o.price, f.squeeze)))
  }

  /** The bid the cursor points at. */
  ghost function Cursor(m: Market, a: Asset, passed: set<Id>): (j: Id)
    requires WellFormed(m) && Live(m, a) && InView(m, a, passed) != map[]
    ensures IsFirst(InView(m, a, passed), j)
  {
    InViewRankable(m, a, passed);
    First(InView(m, a, passed))
  }

  /** The feed is above the call price. */
  predicate Protected(c: CallOrder, b: BitAsset)
    requires b.feed.Some?
  {
    b.backing < b.feed.value.quote || (b.backing == b.feed.value.quote && Less(Invert(c.callPrice), b.feed.value.price))
  }

  /** Not called: no position, no bid, protected by the feed, or the bid asks too much. An offer for some
      other asset than the backing is what collateral cannot be compared with. */
  ghost function Decide(m: Market, a: Asset, passed: set<Id>): Next
    requires WellFormed(m) && Live(m, a)
  {
    if Positions(m, a) == map[] then Stop
    else if InView(m, a, passed) == map[] then (if Beyond(m, a) then Wrong else Stop)
    else
      var i, j := CalledFirst(m, a), Cursor(m, a, passed);
      var c, o := m.calls[i], m.orders[j];
      assert OrderOk(m, o);
      if Protected(c, Bit(m, a).value) then Stop
      else if Less(Invert(c.callPrice), o.price) then Stop
      else if ToQuote(c.debt, o.price) > c.collateral then Swan
      else Call(i, j)
  }

  lemma DecideCallable(m: Market, a: Asset, passed: set<Id>)
    requires WellFormed(m) && Live(m, a)
    ensures match Decide(m, a, passed)
      case Stop => true
      case Swan => Positions(m, a) != map[]
      case Wrong => Askew(m, a)
      case Call(i, j) => Callable(m, i, j) && m.calls[i].owed == a && IsFirst(InView(m, a, passed), j) && IsFirst(Positions(m, a), i)
  {
    match Decide(m, a, passed)
    case Call(i, j) =>
      assert CallOk(m, m.calls[i]) && OrderOk(m, m.orders[j]) && AssetOk(m, m.calls[i].backing);
    case Wrong =>
      var i :| i in Positions(m, a);
      assert CallOk(m, m.calls[i]);
    case _ =>
  }

  /** The flag that an order was used up is never taken back during a run. */
  function UsedUp(m: Market, i: Id, j: Id, stale: bool): bool
    requires Callable(m, i, j)
  {
    stale || m.calls[i].debt >= m.orders[j].forSale
  }

  /** One turn of the loop: its test and, if a position is called, which. */
  datatype Turn = Halt(result: Option<(Market, bool)>) | Go(position: Id, bid: Id)

  /** What a turn decides on once no swan was found. A swan at a bid settles at the feed, which must be
      quoted in what backs the asset. */
  ghost function Decided(m: Market, a: Asset, next: Next, called: bool, allowed: bool): Turn
    requires WellFormed(m) && Live(m, a)
  {
    FeedNotZero(m, a);
    match next
    case Stop => Halt(Some((m, called)))
    case Swan =>
      if allowed && !Askew(m, a) then Halt(Some((GlobalSettle(m, a, Bit(m, a).value.feed.value.price), true))) else Halt(None)
    case Wrong => Halt(None)
    case Call(i, j) => Go(i, j)
  }

  ghost function TakeTurn(m: Market, a: Asset, passed: set<Id>, called: bool, allowed: bool): Turn
    requires WellFormed(m) && Live(m, a)
  {
    match CheckSwan(m, a, allowed)
    case None => Halt(None)
    case Some((m1, true)) => Halt(Some((m1, called)))
    case Some((_, false)) => Decided(m, a, Decide(m, a, passed), called, allowed)
  }

  lemma GoCallable(m: Market, a: Asset, passed: set<Id>, called: bool, allowed: bool)
    requires WellFormed(m) && Live(m, a)
    ensures match TakeTurn(m, a, passed, called, allowed)
      case Halt(_) => true
      case Go(i, j) => Callable(m, i, j)
  {
    DecideCallable(m, a, passed);
  }

  ghost function CallLoop(m: Market, a: Asset, passed: set<Id>, stale: bool, called: bool, allowed: bool): Option<(Market, bool)>
    requires WellFormed(m) && Live(m, a)
    decreases |m.calls| + |m.orders|
  {
    GoCallable(m, a, passed, called, allowed);
    match TakeTurn(m, a, passed, called, allowed)
    case Halt(r) => r
    case Go(i, j) =>
      ExecuteShrinks(m, i, j);
      ExecuteKeeps(m, i, j);
      ExecuteTerms(m, i, j);
      var used := UsedUp(m, i, j, stale);
      CallLoop(Execute(m, i, j), a, if used then passed + {j} else passed, used, true, allowed)
  }

  lemma FeedNotZero(m: Market, a: Asset)
    requires WellFormed(m) && Live(m, a)
    ensures Bit(m, a).value.feed.value.price.base > 0
  {
    assert AssetOk(m, a);
  }

  ghost function CheckCallOrders(m: Market, a: Asset, allowed: bool): Option<(Market, bool)>
    requires WellFormed(m)
  {
    if Bit(m, a).None? then Some((m, false))
    else
      var (m1, swan) :- CheckSwan(m, a, allowed);
      if swan then Some((m1, false)) else CallIfOffered(m, a, allowed)
  }

  ghost function CallIfOffered(m: Market, a: Asset, allowed: bool): Option<(Market, bool)>
    requires WellFormed(m) && Bit(m, a).Some?
  {
    if Bit(m, a).value.prediction || !Live(m, a) then Some((m, false))
    else if InView(m, a, {}) == map[] && !Beyond(m, a) then Some((m, false))
    else CallLoop(m, a, {}, false, false, allowed)
  }

  // ----- what a run does to the book -----------------------------------------------------------

  /** Orders only shrink, at an unchanged price, and one that has shrunk is not dust. */
  ghost predicate Shrunk(m: Market, m': Market) {
    forall j :: j in m'.orders ==> j in m.orders && SameOffer(m.orders[j], m'.orders[j])
  }

  predicate SameOffer(o: LimitOrder, o': LimitOrder) {
    o'.sell == o.sell && o'.receive == o.receive && o'.price == o.price && (o' == o || !Dust(o'))
  }

  lemma ExecuteShrinksBook(m: Market, i: Id, j: Id)
    requires Callable(m, i, j)
    ensures Shrunk(m, Execute(m, i, j))
  {
    ExecuteOrders(m, i, j);
  }

  lemma ShrunkTwice(m: Market, m1: Market, m2: Market)
    requires Shrunk(m, m1) && Shrunk(m1, m2)
    ensures Shrunk(m, m2)
  {}

  lemma SwanByCall(m: Market, a: Asset)
    requires Sound.Sound(m) && Positions(m, a) != map[] && Live(m, a)
    ensures var feed := Bit(m, a).value.feed.value.price;
      feed.base > 0 && Unsettled(m, a)
      && var m' := GlobalSettle(m, a, feed);
         Sound.Sound(m') && Settled(m', a) && m'.orders == m.orders && m'.settles == m.settles && SameLedger(m, m') && SameFeeds(m, m')
  {
    FeedNotZero(m, a);
    var i :| i in Positions(m, a);
    OwedSupply(m, i);
    GlobalSettleSound(m, a, Bit(m, a).value.feed.value.price);
  }

  /** The books stay sound, the book of orders stays in shape, settlement requests are untouched; a
      run that called nothing leaves the orders alone, and changes nothing at all if swans are not
      allowed; it throws only on a swan that is not allowed or on a feed that is askew. */
  ghost predicate GoodRun(m: Market, a: Asset, r: Option<(Market, bool)>, allowed: bool) {
    match r
    case None => !allowed || Askew(m, a)
    case Some((m', called)) =>
      Sound.Sound(m') && Shrunk(m, m') && m'.settles == m.settles && SameLedger(m, m') && SameFeeds(m, m')
      && (!called ==> m'.orders == m.orders && (!allowed ==> m' == m))
  }

  lemma SameOrdersRun(m: Market, a: Asset, m': Market, called: bool, allowed: bool)
    requires Sound.Sound(m') && m'.orders == m.orders && m'.settles == m.settles && SameLedger(m, m') && SameFeeds(m, m')
    requires !called && !allowed ==> m' == m
    ensures GoodRun(m, a, Some((m', called)), allowed)
  {}

  lemma DecidedSound(m: Market, a: Asset, next: Next, called: bool, allowed: bool)
    requires Sound.Sound(m) && Live(m, a)
    requires next.Swan? ==> Positions(m, a) != map[]
    requires next.Wrong? ==> Askew(m, a)
    ensures match Decided(m, a, next, called, allowed)
      case Halt(r) => GoodRun(m, a, r, allowed) && (r.Some? && called ==> r.value.1)
      case Go(i, j) => true
  {
    if next.Swan? {
      SwanByCall(m, a);
      SameOrdersRun(m, a, GlobalSettle(m, a, Bit(m, a).value.feed.value.price), true, allowed);
    } else {
      SameOrdersRun(m, a, m, called, allowed);
    }
  }

  lemma HaltSound(m: Market, a: Asset, passed: set<Id>, called: bool, allowed: bool)
    requires Sound.Sound(m) && Live(m, a)
    ensures match TakeTurn(m, a, passed, called, allowed)
      case Halt(r) => GoodRun(m, a, r, allowed) && (r.Some? && called ==> r.value.1)
      case Go(i, j) => true
  {
    CheckSwanSound(m, a, allowed);
    var r := CheckSwan(m, a, allowed);
    if r.Some? && r.value.1 {
      SameOrdersRun(m, a, r.value.0, called, allowed);
    } else if r.Some? {
      DecideCallable(m, a, passed);
      DecidedSound(m, a, Decide(m, a, passed), called, allowed);
    }
  }

  lemma CallSound(m: Market, i: Id, j: Id)
    requires Sound.Sound(m) && Callable(m, i, j)
    ensures var m' := Execute(m, i, j);
      Sound.Sound(m') && Shrunk(m, m') && m'.settles == m.settles && SameLedger(m, m') && SameFeeds(m, m')
  {
    ExecuteTerms(m, i, j);
    ExecuteSound(m, i, j);
    ExecuteShrinksBook(m, i, j);
    ExecuteFrame(m, i, j);
  }

  lemma RunAfter(m: Market, a: Asset, m1: Market, r: Option<(Market, bool)>, allowed: bool)
    requires Shrunk(m, m1) && m1.settles == m.settles && SameLedger(m, m1) && SameFeeds(m, m1) && GoodRun(m1, a, r, allowed) && (r.Some? ==> r.value.1)
    ensures GoodRun(m, a, r, allowed)
  {
    if r.Some? { ShrunkTwice(m, m1, r.value.0); }
  }

  lemma {:induction false} CallLoopSound(m: Market, a: Asset, passed: set<Id>, stale: bool, called: bool, allowed: bool)
    requires Sound.Sound(m) && Live(m, a)
    ensures var r := CallLoop(m, a, passed, stale, called, allowed);
      GoodRun(m, a, r, allowed) && (r.Some? && called ==> r.value.1)
    decreases |m.calls| + |m.orders|
  {
    HaltSound(m, a, passed, called, allowed);
    GoCallable(m, a, passed, called, allowed);
    match TakeTurn(m, a, passed, called, allowed)
    case Halt(_) =>
    case Go(i, j) =>
      CallSound(m, i, j);
      ExecuteShrinks(m, i, j);
      ExecuteTerms(m, i, j);
      var used := UsedUp(m, i, j, stale);
      var passed' := if used then passed + {j} else passed;
      CallLoopSound(Execute(m, i, j), a, passed', used, true, allowed);
      RunAfter(m, a, Execute(m, i, j), CallLoop(Execute(m, i, j), a, passed', used, true, allowed), allowed);
  }

  lemma CheckCallOrdersSound(m: Market, a: Asset, allowed: bool)
    requires Sound.Sound(m)
    ensures GoodRun(m, a, CheckCallOrders(m, a, allowed), allowed)
  {
    CheckSwanSound(m, a, allowed);
    var r := CheckSwan(m, a, allowed);
    if r.Some? {
      SameOrdersRun(m, a, r.value.0, false, allowed);
      if Live(m, a) {
        CallLoopSound(m, a, {}, false, false, allowed);
      }
    }
  }

  // ----- the cursor -----------------------------------------------------------------------------

  /** A bid that survives a call is still the best one the cursor sees exactly when no bid had been
      used up before in the run. Otherwise the flag that is never reset makes the cursor step over it,
      and the next position is called against a later bid. */
  lemma CursorStaysIff(m: Market, a: Asset, passed: set<Id>, i: Id, j: Id, stale: bool)
    requires WellFormed(m) && Live(m, a) && Callable(m, i, j)
    requires IsFirst(InView(m, a, passed), j) && j in Execute(m, i, j).orders
    ensures var m' := Execute(m, i, j);
      var passed' := if UsedUp(m, i, j, stale) then passed + {j} else passed;
      && Live(m', a) && Bit(m', a) == Bit(m, a)
      && j in Squeezable(m', a, Bit(m, a).value)
      && (IsFirst(InView(m', a, passed'), j) <==> !stale)
  {
    SurvivorNotUsedUp(m, i, j);
    var m' := Execute(m, i, j);
    SurvivorFirst(m, m', a, passed, j);
    if stale {
      assert j !in InView(m', a, passed + {j});
    }
  }

  lemma SurvivorNotUsedUp(m: Market, i: Id, j: Id)
    requires Callable(m, i, j) && j in Execute(m, i, j).orders
    ensures m.calls[i].debt < m.orders[j].forSale
    ensures SameConfig(m, Execute(m, i, j)) && Shrunk(m, Execute(m, i, j))
  {
    ExecuteTerms(m, i, j);
    ExecuteShrinksBook(m, i, j);
    ExecuteOrders(m, i, j);
  }

  lemma SurvivorFirst(m: Market, m': Market, a: Asset, passed: set<Id>, j: Id)
    requires Live(m, a) && Bit(m', a) == Bit(m, a) && Shrunk(m, m')
    requires IsFirst(InView(m, a, passed), j) && j in m'.orders
    ensures IsFirst(InView(m', a, passed), j) && j in Squeezable(m', a, Bit(m, a).value)
  {
    assert SameOffer(m.orders[j], m'.orders[j]);
    forall k | k in InView(m', a, passed)
      ensures k in InView(m, a, passed) && InView(m', a, passed)[k] == InView(m, a, passed)[k]
    {
      assert SameOffer(m.orders[k], m'.orders[k]);
    }
    forall k | k in InView(m', a, passed) ensures Ahead(InView(m', a, passed), j, k) {
      assert Ahead(InView(m, a, passed), j, k);
    }
  }
}
