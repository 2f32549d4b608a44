/** The market as an object: its tables, and the methods that change them in place. */
module Exchange {
  import opened Wrappers
  import opened Prices
  import opened Sums
  import opened MarketState
  import opened MarketFill
  import opened Sound
  import opened Ranking
  import opened MarginCalls
  import opened MarginLoop
  import opened CheckCalls
  import opened OrderBook
  import opened Services
  import opened ForceSettlement
  import opened ClearSettlements
  import opened Operations
  import opened AssetOperations
  import opened AssetCreation
  import U = UpdateCall

  /** The front of a book. */
  method Pick(prices: map<Id, Price>) returns (i: Id)
    requires Rankable(prices) && prices != map[]
    ensures i == First(prices)
  {
    HasFirst(prices);
    i :| IsFirst(prices, i);
    FirstUnique(prices, i, First(prices));
  }

  /** A new id. */
  method NewId(ids: set<Id>) returns (id: Id)
    ensures id == Later(ids)
  {
    id := 0;
    var rest := ids;
    while rest != {}
      invariant rest <= ids && (id == 0 || id - 1 in ids)
      invariant forall i :: i in ids ==> i in rest || i < id
      decreases rest
    {
      var i :| i in rest;
      rest := rest - {i};
      if id <= i { id := i + 1; }
    }
    ghost var later := Later(ids);
    assert later == 0 || later - 1 < id;
  }

  class Tables {
    var balances: map<(Account, Asset), nat>
    var orders: map<Id, LimitOrder>
    var calls: map<Id, CallOrder>
    var settles: map<Id, Settlement>
    var assets: map<Asset, AssetData>
    var pending: map<Account, nat>
    var due: Due
    /** Not a field of the original: it only counts. */
    var minted: nat

    function State(): Market
      reads this
    {
      Market(balances, orders, calls, settles, assets, pending, due, minted)
    }

    constructor (m: Market)
      ensures State() == m
    {
      balances, orders, calls, settles := m.balances, m.orders, m.calls, m.settles;
      assets, pending, due, minted := m.assets, m.pending, m.due, m.minted;
    }

    method Deposit(who: Account, a: Asset, x: nat)
      modifies this`balances
      ensures State() == Credit(old(State()), who, a, x)
    {
      if x != 0 {
        var was := if (who, a) in balances then balances[(who, a)] else 0;
        balances := balances[(who, a) := was + x];
      }
    }

    method AddToPending(who: Account, x: nat)
      modifies this`pending
      ensures State() == AddPending(old(State()), who, x)
    {
      if x != 0 {
        var was := if who in pending then pending[who] else 0;
        pending := pending[who := was + x];
      }
    }

    method ReceiveLessFee(who: Account, a: Asset, x: nat)
      requires Fees(State(), a)
      modifies this`balances, this`assets
      ensures State() == PayOut(old(State()), who, a, x)
    {
      var d := assets[a];
      var fee := MarketFill.MarketFee(d, x);
      FeeAtMost(d, x);
      if fee != 0 {
        assets := assets[a := d.(fees := d.fees + fee)];
      }
      Deposit(who, a, x - fee);
    }

    method CancelOrder(id: Id)
      requires id in orders
      modifies this`balances, this`orders
      ensures State() == CancelLimit(old(State()), id)
    {
      var o := orders[id];
      Deposit(o.seller, o.sell, o.forSale);
      Deposit(o.seller, CORE, o.deferredFee);
      orders := orders - {id};
    }

    method CullIfSmall(id: Id) returns (culled: bool)
      requires id in orders
      modifies this`balances, this`orders
      ensures (State(), culled) == MaybeCull(old(State()), id)
    {
      culled := Dust(orders[id]);
      if culled { CancelOrder(id); }
    }

    method FillOrder(id: Id, pays: nat, receives: nat, cull: bool) returns (filled: bool)
      requires id in orders && pays <= orders[id].forSale && Fees(State(), orders[id].receive)
      modifies this`balances, this`orders, this`assets, this`pending
      ensures (State(), filled) == FillLimit(old(State()), id, pays, receives, cull)
    {
      var o := orders[id];
      ReceiveLessFee(o.seller, o.receive, receives);
      AddToPending(o.seller, o.deferredFee);
      if pays == o.forSale {
        orders := orders - {id};
        return true;
      }
      orders := orders[id := o.(forSale := o.forSale - pays, deferredFee := 0)];
      filled := false;
      if cull { filled := CullIfSmall(id); }
    }

    method FillPosition(id: Id, pays: nat, receives: nat) returns (filled: bool)
      requires id in calls && pays <= calls[id].collateral && receives <= calls[id].debt && calls[id].owed in assets
      modifies this`balances, this`calls, this`assets
      ensures (State(), filled) == FillCall(old(State()), id, pays, receives)
    {
      var c := calls[id];
      assets := assets[c.owed := assets[c.owed].(supply := assets[c.owed].supply - receives)];
      if receives == c.debt {
        Deposit(c.borrower, c.backing, c.collateral - pays);
        calls := calls - {id};
        return true;
      }
      calls := calls[id := c.(debt := c.debt - receives, collateral := c.collateral - pays)];
      filled := false;
    }

    method FillRequest(id: Id, pays: nat, backing: Asset, receives: nat) returns (filled: bool)
      requires id in settles && pays <= settles[id].balance && Fees(State(), backing)
      modifies this`balances, this`settles, this`assets
      ensures (State(), filled) == FillSettle(old(State()), id, pays, backing, receives)
    {
      var s := settles[id];
      ReceiveLessFee(s.owner, backing, receives);
      if pays < s.balance {
        settles := settles[id := s.(balance := s.balance - pays)];
        return false;
      }
      settles := settles - {id};
      filled := true;
    }

    method CancelRequest(id: Id)
      requires id in settles
      modifies this`balances, this`settles
      ensures State() == CancelSettle(old(State()), id)
    {
      var s := settles[id];
      Deposit(s.owner, s.asset, s.balance);
      settles := settles - {id};
    }

    /** Two limit orders trade at the resting order's price. */
    method MatchOrders(taker: Id, maker: Id) returns (r: int)
      requires Matchable(State(), taker, maker)
      modifies this`balances, this`orders, this`assets, this`pending
      ensures (State(), r) == Match(old(State()), taker, maker)
    {
      var t, k := orders[taker], orders[maker];
      TradeFits(t, k);
      var (x, y) := Trade(t, k);
      FillLimitFrame(State(), taker, x, y, false);
      var f1 := FillOrder(taker, x, y, false);
      var f2 := FillOrder(maker, y, x, true);
      r := (if f1 then 1 else 0) + (if f2 then 2 else 0);
    }

    // ----- global settlement and margin calls --------------------------------------------------------

    /** The position called first pays off its whole debt, as far as its collateral goes. */
    method CloseFirst(a: Asset, price: Price) returns (pays: nat)
      requires WellFormed(State()) && price.base > 0 && Positions(State(), a) != map[]
      modifies this`balances, this`calls, this`assets
      ensures Closing(old(State()), a, price, State(), pays)
    {
      FirstOwes(State(), a);
      PositionsRankable(State(), a);
      var i := Pick(Positions(State(), a));
      var c := calls[i];
      pays := Seized(c, price);
      var _ := FillPosition(i, pays, c.debt);
    }

    /** Closes every position in the asset, and adds up what they pay. */
    method ClosePositions(a: Asset, price: Price) returns (gathered: nat)
      requires WellFormed(State()) && price.base > 0
      modifies this`balances, this`calls, this`assets
      ensures State() == CloseAll(old(State()), a, price).0 && gathered == CloseAll(old(State()), a, price).1
    {
      ghost var m := State();
      gathered := 0;
      while Positions(State(), a) != map[]
        invariant WellFormed(State()) && Closed(m, State(), a, price, gathered)
        decreases |calls|
      {
        ghost var m1 := State();
        var pays := CloseFirst(a, price);
        CloseOne(m1, a, price, State(), pays);
        ClosedMore(m, m1, a, price, gathered, State(), pays);
        gathered := gathered + pays;
      }
    }

    /** What the positions pay is kept as the settlement fund, and the supply is put back. */
    method SettleGlobally(a: Asset, price: Price)
      requires WellFormed(State()) && price.base > 0 && Bit(State(), a).Some?
      modifies this`balances, this`calls, this`assets
      ensures State() == GlobalSettle(old(State()), a, price)
    {
      CloseAllKeeps(State(), a, price);
      var supply := assets[a].supply;
      var gathered := ClosePositions(a, price);
      var b := assets[a].bit.value.(settlement := Some(Price(NonNegative(supply), gathered)), fund := gathered);
      assets := assets[a := assets[a].(supply := supply, bit := Some(b))];
    }

    /** Whether the asset is settled, now or already; not ok when a swan shows where none is allowed. */
    method CheckForSwan(a: Asset, allowed: bool) returns (ok: bool, swan: bool)
      requires WellFormed(State())
      modifies this`balances, this`calls, this`assets
      ensures match CheckSwan(old(State()), a, allowed)
        case None => !ok
        case Some((m, s)) => ok && State() == m && swan == s
    {
      if Bit(State(), a).None? { return true, false; }
      var b := Bit(State(), a).value;
      if b.settlement.Some? { return true, true; }
      if b.feed.None? { return true, false; }
      if b.backing == a { return false, false; }
      if Positions(State(), a) == map[] { return true, false; }
      PositionsRankable(State(), a);
      var i := Pick(Positions(State(), a));
      var c := calls[i];
      assert CallOk(State(), c);
      var highest := ReachesHighest(a, Price(c.debt, c.collateral));
      if !highest { return true, false; }
      if !allowed { return false, false; }
      SettleGlobally(a, Price(c.debt, c.collateral));
      return true, true;
    }

    /** Whether a price has reached the higher of the feed and the best bid. */
    method ReachesHighest(a: Asset, p: Price) returns (reached: bool)
      requires WellFormed(State()) && Bit(State(), a).Some? && Bit(State(), a).value.feed.Some?
      ensures reached <==> ReachesFeed(p, Bit(State(), a).value) && ReachesBids(State(), a, p)
    {
      var b := Bit(State(), a).value;
      reached := ReachesFeed(p, b);
      var bids := Bids(State(), a, b.backing);
      if bids == map[] { return; }
      BidsRankable(State(), a, b.backing);
      var j := Pick(bids);
      reached := reached && AtLeast(p, bids[j]);
    }

    /** Which position is called against which bid. */
    method Decide(a: Asset, passed: set<Id>) returns (next: Next)
      requires WellFormed(State()) && Live(State(), a)
      ensures next == CheckCalls.Decide(State(), a, passed)
    {
      var positions, bids := Positions(State(), a), InView(State(), a, passed);
      if positions == map[] { return Stop; }
      if bids == map[] {
        var beyond := LooksBeyond(a);
        return if beyond then Wrong else Stop;
      }
      PositionsRankable(State(), a);
      InViewRankable(State(), a, passed);
      var i := Pick(positions);
      var j := Pick(bids);
      var c, o := calls[i], orders[j];
      assert OrderOk(State(), o);
      if Protected(c, Bit(State(), a).value) || Less(Invert(c.callPrice), o.price) {
        next := Stop;
      } else if ToQuote(c.debt, o.price) > c.collateral {
        next := Swan;
      } else {
        next := Call(i, j);
      }
    }

    /** Whether the cursor, past the last bid, comes to an offer for some other asset. */
    method LooksBeyond(a: Asset) returns (beyond: bool)
      requires Live(State(), a)
      ensures beyond <==> Beyond(State(), a)
    {
      var rest := orders.Keys;
      while rest != {}
        invariant rest <= orders.Keys
        invariant Beyond(State(), a) ==> exists i :: i in rest && IsBeyond(State(), a, orders[i])
        decreases rest
      {
        var i :| i in rest;
        if IsBeyond(State(), a, orders[i]) { return true; }
        rest := rest - {i};
      }
      beyond := false;
    }

    /** The position buys from the bid, at the bid's price. */
    method CallPosition(i: Id, j: Id)
      requires Callable(State(), i, j)
      modifies this`balances, this`orders, this`calls, this`assets, this`pending
      ensures State() == Execute(old(State()), i, j)
    {
      NeverOverdrawn(State(), i, j);
      PaidOffFrame(State(), i, j);
      var (x, pays) := Deal(State(), i, j);
      var _ := FillPosition(i, pays, x);
      var _ := FillOrder(j, x, pays, true);
    }

    /** What a turn comes to once no swan was found. */
    method TurnOnBid(a: Asset, passed: set<Id>, called: bool, allowed: bool) returns (halt: bool, ok: bool, result: bool, i: Id, j: Id)
      requires WellFormed(State()) && Live(State(), a)
      modifies this`balances, this`calls, this`assets
      ensures match Decided(old(State()), a, CheckCalls.Decide(old(State()), a, passed), called, allowed)
        case Halt(None) => halt && !ok
        case Halt(Some((m, c))) => halt && ok && State() == m && result == c
        case Go(p, b) => !halt && i == p && j == b && State() == old(State())
    {
      FeedNotZero(State(), a);
      halt, ok, result, i, j := true, true, called, 0, 0;
      var next := Decide(a, passed);
      match next
      case Stop =>
      case Wrong => ok := false;
      case Swan =>
        ok := allowed && !Askew(State(), a);
        if ok {
          SettleGlobally(a, Bit(State(), a).value.feed.value.price);
          result := true;
        }
      case Call(p, b) => halt, i, j := false, p, b;
    }

    /** One turn of the margin call loop: whether it ends, with what, or else which bid was taken. */
    method TurnOfCalls(a: Asset, passed: set<Id>, called: bool, allowed: bool) returns (halt: bool, ok: bool, result: bool, i: Id, j: Id)
      requires WellFormed(State()) && Live(State(), a)
      modifies this`balances, this`calls, this`assets
      ensures match TakeTurn(old(State()), a, passed, called, allowed)
        case Halt(None) => halt && !ok
        case Halt(Some((m, c))) => halt && ok && State() == m && result == c
        case Go(p, b) => !halt && i == p && j == b && State() == old(State())
    {
      ghost var m := State();
      halt, ok, result, i, j := true, true, called, 0, 0;
      var swan;
      ok, swan := CheckForSwan(a, allowed);
      if !ok || swan { return; }
      UnswayedSame(m, a, allowed);
      halt, ok, result, i, j := TurnOnBid(a, passed, called, allowed);
    }

    /** Margin calls in one asset, while there are positions to call and bids to call them against. */
    method CheckCallOrders(a: Asset, allowed: bool) returns (ok: bool, called: bool)
      requires WellFormed(State())
      modifies this`balances, this`orders, this`calls, this`assets, this`pending
      ensures match CheckCalls.CheckCallOrders(old(State()), a, allowed)
        case None => !ok
        case Some((m, c)) => ok && State() == m && called == c
    {
      ghost var m := State();
      called := false;
      if Bit(State(), a).None? { return true, false; }
      var swan;
      ok, swan := CheckForSwan(a, allowed);
      if !ok || swan { return; }
      UnswayedSame(m, a, allowed);
      ok, called := CallIfOffered(a, allowed);
    }

    /** Unless the asset is a prediction market or has no feed, or nothing is offered. */
    method CallIfOffered(a: Asset, allowed: bool) returns (ok: bool, called: bool)
      requires WellFormed(State()) && Bit(State(), a).Some?
      modifies this`balances, this`orders, this`calls, this`assets, this`pending
      ensures match CheckCalls.CallIfOffered(old(State()), a, allowed)
        case None => !ok
        case Some((m, c)) => ok && State() == m && called == c
    {
      ok, called := true, false;
      if Bit(State(), a).value.prediction || !Live(State(), a) { return; }
      var offers := SeesOffers(a);
      if offers { ok, called := CallAll(a, allowed); }
    }

    method SeesOffers(a: Asset) returns (offers: bool)
      requires Live(State(), a)
      ensures offers <==> InView(State(), a, {}) != map[] || Beyond(State(), a)
    {
      offers := InView(State(), a, {}) != map[];
      if !offers { offers := LooksBeyond(a); }
    }

    method CallAll(a: Asset, allowed: bool) returns (ok: bool, called: bool)
      requires WellFormed(State()) && Live(State(), a)
      modifies this`balances, this`orders, this`calls, this`assets, this`pending
      ensures match CallLoop(old(State()), a, {}, false, false, allowed)
        case None => !ok
        case Some((m, c)) => ok && State() == m && called == c
    {
      ghost var m := State();
      var passed: set<Id>, stale := {}, false;
      called := false;
      while true
        invariant WellFormed(State()) && Live(State(), a)
        invariant CallLoop(m, a, {}, false, false, allowed) == CallLoop(State(), a, passed, stale, called, allowed)
        decreases |calls| + |orders|
      {
        GoCallable(State(), a, passed, called, allowed);
        ghost var m1 := State();
        var halt, result, i, j;
        halt, ok, result, i, j := TurnOfCalls(a, passed, called, allowed);
        if halt { return ok, result; }
        ExecuteShrinks(m1, i, j);
        ExecuteKeeps(m1, i, j);
        ExecuteTerms(m1, i, j);
        stale := UsedUp(State(), i, j, stale);
        CallPosition(i, j);
        passed, called := if stale then passed + {j} else passed, true;
      }
    }

    // ----- new orders -------------------------------------------------------------------------------

    method CheckBothAssets(sell: Asset, receive: Asset) returns (ok: bool, called: bool)
      requires Sound.Sound(State())
      modifies this`balances, this`orders, this`calls, this`assets, this`pending
      ensures match CheckBoth(old(State()), sell, receive)
        case None => !ok
        case Some((m, c)) => ok && State() == m && called == c
    {
      CheckCallOrdersSound(State(), sell, true);
      ok, called := CheckCallOrders(sell, true);
      if !ok { return; }
      var second;
      ok, second := CheckCallOrders(receive, true);
      called := called || second;
    }

    /** Trades the order with the best offers against it, until it or they are used up. */
    method MatchAll(id: Id)
      requires WellFormed(State())
      modifies this`balances, this`orders, this`assets, this`pending
      ensures State() == MatchLoop(old(State()), id)
    {
      ghost var m := State();
      var more := true;
      while more && id in orders && Makers(State(), id) != map[]
        invariant WellFormed(State())
        invariant MatchLoop(m, id) == if more then MatchLoop(State(), id) else State()
        decreases more, |orders|
      {
        MakersRankable(State(), id);
        var k := Pick(Makers(State(), id));
        CrossingMatchable(State(), id, k);
        MatchKeeps(State(), id, k);
        ghost var m1 := State();
        var r := MatchOrders(id, k);
        if r == 2 { MatchedSmaller(m1, id, k); }
        more := r == 2;
      }
    }

    /** A new order meets margin calls and the offers against it; what is left rests or is culled. */
    method ApplyNew(id: Id) returns (ok: bool, gone: bool)
      requires Sound.Sound(State()) && id in orders && UncrossedBut(State(), id) && NoDustBut(State(), id)
      modifies this`balances, this`orders, this`calls, this`assets, this`pending
      ensures match ApplyOrder(old(State()), id)
        case None => !ok
        case Some((m, g)) => ok && State() == m && gone == g
      ensures ok ==> Sound.Sound(State()) && Uncrossed(State()) && NoDust(State()) && (gone <==> id !in orders)
      ensures !ok ==> AskewIn(old(State()), old(orders[id].sell), old(orders[id].receive))
    {
      ghost var m := State();
      ApplyOrderSound(m, id);
      var sell, receive := orders[id].sell, orders[id].receive;
      CheckBothSound(m, sell, receive);
      var called;
      ok, called := CheckBothAssets(sell, receive);
      if !ok { return false, false; }
      if called && id !in orders { return true, true; }
      ok, gone := ApplyOn(id, sell, receive);
    }

    /** The rest of it: matching, margin calls again, and the last look at what is left. */
    method ApplyOn(id: Id, sell: Asset, receive: Asset) returns (ok: bool, gone: bool)
      requires Sound.Sound(State())
      modifies this`balances, this`orders, this`calls, this`assets, this`pending
      ensures match ApplyRest(old(State()), id, sell, receive)
        case None => !ok
        case Some((m, g)) => ok && State() == m && gone == g
    {
      MatchLoopSound(State(), id);
      MatchAll(id);
      var fine, _ := CheckBothAssets(sell, receive);
      ok, gone := fine, true;
      if !ok { return; }
      if id in orders { gone := CullIfSmall(id); }
    }

    // ----- settlement requests -----------------------------------------------------------------------

    /** The least collateralised position serves a request once. */
    method ServeOnce(k: Id, a: Asset, price: Price, most: nat, ghost r: Service) returns (swan: bool, ok: bool, x: nat)
      requires WellFormed(State()) && price.base > 0 && Requested(State(), k, a) && ByCollateral(State(), a) != map[]
      requires r == ServeTurn(State(), k, a, price, most)
      modifies this`balances, this`calls, this`settles, this`assets
      ensures !ok ==> r.Refused?
      ensures ok && swan ==> r.BlackSwan? && State() == old(State()) && k in settles
      ensures ok && !swan ==> r == Paid(State(), x)
    {
      WeakestServable(State(), k, a);
      CollateralRankable(State(), a);
      var i := Pick(ByCollateral(State(), a));
      var c, s := calls[i], settles[k];
      x := Portion(c, s, most);
      var pays := ToQuote(x, price);
      ok, swan := c.collateral > 0 && !Askew(State(), a), pays >= c.collateral;
      if ok && !swan {
        FillCallFrame(State(), i, pays, x);
        var _ := FillPosition(i, pays, x);
        var _ := FillRequest(k, x, c.backing, pays);
      }
    }

    /** One turn: the service ends, or something has been served. */
    method ServeOn(k: Id, a: Asset, price: Price, settled: nat, max: nat) returns (done: bool, ok: bool, x: nat)
      requires CanServe(State(), k, a, price, settled, max) && settled < max && k in settles
      modifies this`balances, this`calls, this`settles, this`assets
      ensures ServedTo(old(State()), State(), done, ok, x, k, a, price, settled, max)
    {
      ghost var m := State();
      done, ok, x := true, true, 0;
      if settles[k].balance == 0 {
        NothingWanted(m, k, a, price, settled, max);
        CancelRequest(k);
        return;
      }
      if ByCollateral(State(), a) == map[] {
        NoneToServe(m, k, a, price, settled, max);
        ok := false;
        return;
      }
      done, ok, x := ServeFrom(k, a, price, settled, max);
    }

    /** The same when something is wanted and a position is found. */
    method ServeFrom(k: Id, a: Asset, price: Price, settled: nat, max: nat) returns (done: bool, ok: bool, x: nat)
      requires CanServe(State(), k, a, price, settled, max) && settled < max && Wanted(State(), k, a) && ByCollateral(State(), a) != map[]
      modifies this`balances, this`calls, this`settles, this`assets
      ensures ServedTo(old(State()), State(), done, ok, x, k, a, price, settled, max)
    {
      ghost var m := State();
      ghost var r := ServeTurn(m, k, a, price, max - settled);
      var swan;
      swan, ok, x := ServeOnce(k, a, price, max - settled, r);
      done := !ok || swan;
      if ok && swan { CancelRequest(k); }
      AfterTurn(m, k, a, price, settled, max, r);
      TurnEnds(m, State(), r, ok, swan, x, k, a, price, settled, max);
    }

    /** Serves a request until it is used up or the volume is; a swan cancels it. */
    method ServeAll(k: Id, a: Asset, price: Price, settled0: nat, max: nat) returns (ok: bool, settled: nat)
      requires CanServe(State(), k, a, price, settled0, max)
      modifies this`balances, this`calls, this`settles, this`assets
      ensures GoodService(old(State()), if ok then Paid(State(), settled) else Refused, k, a, price, settled0, max)
    {
      ghost var m := State();
      ok, settled := true, settled0;
      var done := false;
      while !done && settled < max && k in settles
        invariant !done ==> ok && Serving(m, settled0, State(), settled, k, a, price, max)
        invariant done ==> GoodService(m, if ok then Paid(State(), settled) else Refused, k, a, price, settled0, max)
        decreases !done, max - settled
      {
        done, ok, settled := ServeNext(m, settled0, k, a, price, settled, max);
      }
      if !done { NothingLeft(m, settled0, State(), settled, k, a, price, max); }
    }

    /** One turn of that: the service ends, or something more has been served. */
    method ServeNext(ghost m: Market, ghost settled0: nat, k: Id, a: Asset, price: Price, settled: nat, max: nat)
      returns (done: bool, ok: bool, settled': nat)
      requires Serving(m, settled0, State(), settled, k, a, price, max) && settled < max && k in settles
      modifies this`balances, this`calls, this`settles, this`assets
      ensures done ==> GoodService(m, if ok then Paid(State(), settled') else Refused, k, a, price, settled0, max)
      ensures !done ==> ok && Serving(m, settled0, State(), settled', k, a, price, max) && settled < settled'
    {
      ghost var m1 := State();
      var x;
      done, ok, x := ServeOn(k, a, price, settled, max);
      ServedOn(m, settled0, m1, settled, State(), x, done, ok, k, a, price, max);
      settled' := if done then settled else settled + x;
      if !done { ok := true; }
    }

    /** Serves a due request, and records how much of its asset has been settled. */
    method SettleRequest(k: Id) returns (ok: bool)
      requires Sound.Sound(State()) && k in settles && Settleable(State(), k)
      modifies this`balances, this`calls, this`settles, this`assets
      ensures var a := old(settles[k].asset);
        && (!ok <==> Blocks(old(State()), k))
        && (ok ==> Dealt(old(State()), State(), k) && Dealing(old(State()), State(), k) && (k in settles ==> Bit(State(), a).Some? && Full(State(), a)))
    {
      ghost var m := State();
      var a := settles[k].asset;
      var b := Bit(State(), a).value;
      var settled;
      ok, settled := ServeAll(k, a, SettlePrice(State(), k), b.forceSettled, Limit(State(), a));
      if ok {
        ResultDealt(m, Paid(State(), settled), k, a);
        ResultDealing(m, Paid(State(), settled), k, a);
        assets := assets[a := assets[a].(bit := Some(assets[a].bit.value.(forceSettled := settled)))];
      }
    }

    /** One turn over the first request from an asset on: where to go on from. */
    method ClearOne(now: nat, cur: Asset, k: Id) returns (ok: bool, next: Asset)
      requires Sound.Sound(State()) && IsNext(State(), From(State(), cur), k)
      modifies this`balances, this`calls, this`settles, this`assets
      ensures !ok ==> GoodClearing(old(State()), None, now, cur)
      ensures ok ==> GoodTurn(old(State()), State(), now, cur, next)
    {
      assert SettleOk(State(), settles[k]);
      match Consider(State(), k, now)
      case Cancel => next := GiveBack(now, cur, k); ok := true;
      case Skip => next := PassOver(now, cur, k); ok := true;
      case Settle => ok, next := SettleDue(now, cur, k);
    }

    /** The asset has been settled globally, or has no feed. */
    method GiveBack(now: nat, cur: Asset, k: Id) returns (next: Asset)
      requires Sound.Sound(State()) && IsNext(State(), From(State(), cur), k) && Bit(State(), settles[k].asset).Some?
      requires Consider(State(), k, now).Cancel?
      modifies this`balances, this`settles
      ensures GoodTurn(old(State()), State(), now, cur, next)
    {
      next := settles[k].asset;
      CancelTurn(State(), now, cur, k);
      CancelRequest(k);
    }

    /** It is not due, or no more may be settled. */
    method PassOver(now: nat, cur: Asset, k: Id) returns (next: Asset)
      requires Sound.Sound(State()) && IsNext(State(), From(State(), cur), k) && Bit(State(), settles[k].asset).Some?
      requires Consider(State(), k, now).Skip?
      ensures GoodTurn(State(), State(), now, cur, next)
    {
      next := settles[k].asset + 1;
      SkipTurn(State(), now, cur, k, next);
    }

    method SettleDue(now: nat, cur: Asset, k: Id) returns (ok: bool, next: Asset)
      requires Sound.Sound(State()) && IsNext(State(), From(State(), cur), k) && Bit(State(), settles[k].asset).Some?
      requires Consider(State(), k, now).Settle?
      modifies this`balances, this`calls, this`settles, this`assets
      ensures !ok ==> GoodClearing(old(State()), None, now, cur)
      ensures ok ==> GoodTurn(old(State()), State(), now, cur, next)
    {
      ghost var m := State();
      next := settles[k].asset;
      SettleOneDeals(m, k);
      ok := SettleRequest(k);
      if ok { SettleTurn(m, State(), now, cur, k); } else { BlockTurn(m, now, cur, k); }
    }

    /** All requests, asset by asset, until one blocks the run. */
    method ClearRequests(now: nat) returns (ok: bool)
      requires Sound.Sound(State())
      modifies this`balances, this`calls, this`settles, this`assets
      ensures GoodClearing(old(State()), if ok then Some(State()) else None, now, CORE)
    {
      ghost var m := State();
      var cur := CORE;
      while From(State(), cur) != {}
        invariant Sound.Sound(State()) && TurnLeads(m, State(), now, CORE, cur)
        decreases From(State(), cur), Open(State(), cur)
      {
        ghost var m1 := State();
        HasNext(State(), From(State(), cur));
        var k :| IsNext(State(), From(State(), cur), k);
        var next;
        ok, next := ClearOne(now, cur, k);
        if !ok { return; }
        LeadsTwice(m, m1, State(), now, CORE, cur, next);
        cur := next;
      }
      NothingToClear(State(), now, cur);
      ok := true;
      assert GoodClearing(State(), Some(State()), now, cur);
    }

    // ----- operations --------------------------------------------------------------------------------
    // A method that is not ok leaves its changes to the undo session around the operation.

    method Withdraw(who: Account, a: Asset, x: nat) returns (ok: bool)
      modifies this`balances
      ensures ok <==> x <= Balance(old(State()), who, a)
      ensures ok ==> State() == Debit(old(State()), who, a, x)
    {
      var has := if (who, a) in balances then balances[(who, a)] else 0;
      ok := x <= has;
      if ok && x != 0 { balances := balances[(who, a) := has - x]; }
    }

    method ConvertFee(f: Fee)
      requires Convertible(State(), f)
      modifies this`assets, this`due
      ensures State() == Convert(old(State()), f)
    {
      if f.asset != CORE {
        var d := assets[f.asset];
        assets := assets[f.asset := d.(fees := d.fees + f.amount, pool := d.pool - f.core)];
      }
      due := Due(f.asset, f.amount);
    }

    method CollectFee(payer: Account) returns (ok: bool)
      modifies this`balances, this`due
      ensures (if ok then Some(State()) else None) == TakeFee(old(State()), payer)
    {
      ok := Withdraw(payer, due.asset, due.amount);
      if ok { due := Due(CORE, 0); }
    }

    /** Converts the fee, takes what is offered from the seller, and puts the order into the book. */
    method PlaceOrder(f: Fee, x: Offer) returns (id: Id)
      requires CanPlace(State(), f, x) && Uncrossed(State()) && NoDust(State())
      modifies this`assets, this`due, this`balances, this`orders
      ensures x.forSale <= Balance(Convert(old(State()), f), x.seller, x.sell)
      ensures State() == Place(Convert(old(State()), f), AsOrder(x, f.core)) && id == Later(Convert(old(State()), f).orders.Keys)
      ensures id in orders && UncrossedBut(State(), id) && NoDustBut(State(), id)
    {
      ConvertFrame(State(), f);
      PlacedBook(Convert(State(), f), AsOrder(x, f.core));
      ConvertFee(f);
      var _ := Withdraw(x.seller, x.sell, x.forSale);
      id := NewId(orders.Keys);
      orders := orders[id := AsOrder(x, f.core)];
    }

    /** A new limit order, from its fee to its fee. */
    method CreateOrder(f: Fee, x: Offer, kill: bool) returns (ok: bool)
      requires Healthy(State()) && Idle(State())
      modifies this
      ensures (if ok then Some(State()) else None) == Operations.CreateLimit(old(State()), f, x, kill)
    {
      if !CanPlace(State(), f, x) { return false; }
      PlacedSound(State(), f, AsOrder(x, f.core));
      var id := PlaceOrder(f, x);
      var gone;
      ok, gone := ApplyNew(id);
      if !ok || (kill && !gone) { return false; }
      ok := CollectFee(f.payer);
    }

    /** The row of a new asset, and what its fee leaves in its pool and in what is pending. */
    method AddAsset(f: Fee, p: Plan)
      requires Payable(State(), f)
      modifies this`assets, this`due, this`pending, this`minted
      ensures State() == WithNew(old(State()), f, p)
    {
      ConvertFee(Halved(f));
      AddToPending(f.payer, Halved(f).core);
      var a := NewId(assets.Keys);
      assets := assets[a := Created(p, Halved(f).core)];
      minted := minted + Surplus(f);
    }

    /** A new asset, from its fee to its fee. */
    method NewAsset(f: Fee, p: Plan) returns (ok: bool)
      requires Healthy(State()) && Idle(State())
      modifies this
      ensures (if ok then Some(State()) else None) == AssetCreation.CreateAsset(old(State()), f, p)
    {
      if !Payable(State(), f) || !PlanOk(State(), p) { return false; }
      AddAsset(f, p);
      ok := CollectFee(f.payer);
    }

    method CancelByOwner(seller: Account, id: Id) returns (ok: bool)
      requires Sound.Sound(State())
      modifies this
      ensures (if ok then Some(State()) else None) == Operations.CancelOrder(old(State()), seller, id)
    {
      if id !in orders || orders[id].seller != seller { return false; }
      CancelLimitSound(State(), id);
      var sell, receive := orders[id].sell, orders[id].receive;
      CancelOrder(id);
      var fine, _ := CheckBothAssets(sell, receive);
      ok := fine;
    }

    /** A holder redeems at the settlement price, or asks to be settled later. */
    method SettleAsset(who: Account, a: Asset, x: nat, date: nat, enabled: bool) returns (ok: bool)
      requires WellFormed(State())
      modifies this
      ensures (if ok then Some(State()) else None) == AssetOperations.Settle(old(State()), who, a, x, date, enabled)
    {
      assert a in assets ==> AssetOk(State(), a);
      if !CanSettle(State(), a, enabled) { return false; }
      var b := Bit(State(), a).value;
      ok := Withdraw(who, a, x);
      if !ok { return; }
      if b.settlement.Some? {
        var worth := ToQuote(x, b.settlement.value);
        if worth > b.fund { return false; }
        assets := assets[a := assets[a].(bit := Some(b.(fund := b.fund - worth)))];
        Deposit(who, b.backing, worth);
        assets := assets[a := assets[a].(supply := assets[a].supply - x)];
      } else {
        var id := NewId(settles.Keys);
        settles := settles[id := Settlement(who, x, a, date)];
      }
    }

    method AdjustBalance(who: Account, a: Asset, x: int) returns (ok: bool)
      modifies this`balances
      ensures match U.Adjust(old(State()), who, a, x)
        case Some(m) => ok && State() == m
        case None => !ok
    {
      if x >= 0 {
        Deposit(who, a, x);
        ok := true;
      } else {
        ok := Withdraw(who, a, -x);
      }
    }

    /** The transfers that go with a change of position. */
    method ExchangeFor(x: U.Amendment) returns (ok: bool)
      requires U.Open(State(), x)
      modifies this`balances, this`assets
      ensures match U.Exchange(old(State()), x)
        case Some(m) => ok && State() == m
        case None => !ok
    {
      var backing := Bit(State(), x.asset).value.backing;
      ok := AdjustBalance(x.who, x.asset, x.debt);
      if !ok { return; }
      assets := assets[x.asset := assets[x.asset].(supply := assets[x.asset].supply + x.debt)];
      ok := AdjustBalance(x.who, backing, -x.collateral);
    }

    /** The position, found or new, with the change made to it. */
    method ChangePosition(x: U.Amendment, i: Id) returns (ok: bool)
      requires Unsettled(State(), x.asset)
      modifies this`calls
      ensures match U.Changed(old(State()), x, i)
        case Some(m) => ok && State() == m
        case None => !ok
    {
      var c := U.Before(State(), x, i);
      var debt, collateral := c.debt + x.debt, c.collateral + x.collateral;
      ok := true;
      if debt == 0 && collateral == 0 && i in calls {
        calls := calls - {i};
      } else if debt <= 0 || collateral <= 0 {
        ok := false;
      } else {
        calls := calls[i := c.(debt := debt, collateral := collateral, callPrice := x.callPrice)];
      }
    }

    /** A change of a margin position. */
    method UpdatePosition(x: U.Amendment) returns (ok: bool)
      requires Sound.Sound(State())
      modifies this
      ensures (if ok then Some(State()) else None) == U.Update(old(State()), x)
    {
      ghost var m := State();
      if !U.Open(State(), x) || !Positive(x.callPrice) { return false; }
      ok := ExchangeFor(x);
      if !ok { return; }
      var i := FindPosition(x);
      U.ExchangeFrame(m, x);
      ok := ChangePosition(x, i);
      if !ok { return; }
      U.AppliedSound(m, x);
      U.AppliedTerms(m, x);
      ok := CheckPosition(x, i);
    }

    method FindPosition(x: U.Amendment) returns (i: Id)
      ensures i == U.Position(State(), x)
    {
      var his := U.His(State(), x);
      if his == {} {
        i := NewId(calls.Keys);
      } else {
        HasLeast(his);
        i :| IsLeast(his, i);
        LeastUnique(his, i, Least(his));
      }
    }

    /** Margin calls after a change; the position must come out above the feed, or closed. */
    method CheckPosition(x: U.Amendment, i: Id) returns (ok: bool)
      requires WellFormed(State()) && Unsettled(State(), x.asset)
      modifies this`balances, this`orders, this`calls, this`assets, this`pending
      ensures match U.Checked(old(State()), x, i)
        case Some(m) => ok && State() == m
        case None => !ok
    {
      var b := Bit(State(), x.asset).value;
      if i !in calls || b.prediction { return true; }
      var called;
      ok, called := CheckCallOrders(x.asset, false);
      if !ok { return; }
      if called {
        ok := i !in calls;
      } else {
        ok := i in calls && b.feed.Some? && Protected(calls[i], b);
      }
    }
  }

  lemma FirstOwes(m: Market, a: Asset)
    requires WellFormed(m) && Positions(m, a) != map[]
    ensures m.calls[CalledFirst(m, a)].owed in m.assets
  {
    assert CallOk(m, m.calls[CalledFirst(m, a)]);
  }

  /** One round of closing positions. */
  ghost predicate Closing(m: Market, a: Asset, price: Price, m': Market, pays: nat)
    requires WellFormed(m) && price.base > 0 && Positions(m, a) != map[]
  {
    FirstOwes(m, a);
    var i := CalledFirst(m, a);
    m' == FillCall(m, i, Seized(m.calls[i], price), m.calls[i].debt).0 && pays == Seized(m.calls[i], price)
  }

  lemma CloseOne(m: Market, a: Asset, price: Price, m': Market, pays: nat)
    requires WellFormed(m) && price.base > 0 && Positions(m, a) != map[] && Closing(m, a, price, m', pays)
    ensures WellFormed(m') && |m'.calls| < |m.calls|
    ensures CloseAll(m, a, price).0 == CloseAll(m', a, price).0
    ensures CloseAll(m, a, price).1 == pays + CloseAll(m', a, price).1
  {
    FirstOwes(m, a);
    var i := CalledFirst(m, a);
    var c := m.calls[i];
    FillCallKeeps(m, i, Seized(c, price), c.debt);
    MinusSize(m.calls, i);
  }

  /** What has been gathered, and what is still to come. */
  ghost predicate Closed(m: Market, m': Market, a: Asset, price: Price, gathered: nat)
    requires WellFormed(m) && WellFormed(m') && price.base > 0
  {
    CloseAll(m, a, price).0 == CloseAll(m', a, price).0 && CloseAll(m, a, price).1 == gathered + CloseAll(m', a, price).1
  }

  lemma ClosedMore(m: Market, m1: Market, a: Asset, price: Price, gathered: nat, m': Market, pays: nat)
    requires WellFormed(m) && WellFormed(m1) && WellFormed(m') && price.base > 0
    requires Closed(m, m1, a, price, gathered) && Closed(m1, m', a, price, pays)
    ensures Closed(m, m', a, price, gathered + pays)
  {}

  /** A swan check that finds none changes nothing. */
  lemma UnswayedSame(m: Market, a: Asset, allowed: bool)
    requires WellFormed(m)
    ensures var r := CheckSwan(m, a, allowed); r.Some? && !r.value.1 ==> r.value.0 == m
  {}

  lemma MakersRankable(m: Market, id: Id)
    requires WellFormed(m) && id in m.orders
    ensures Rankable(Makers(m, id))
  {
    forall i | i in m.orders ensures Positive(m.orders[i].price) { assert OrderOk(m, m.orders[i]); }
  }

  lemma CollateralRankable(m: Market, a: Asset)
    requires WellFormed(m)
    ensures Rankable(ByCollateral(m, a))
  {
    forall j | j in m.calls ensures m.calls[j].debt > 0 { assert CallOk(m, m.calls[j]); }
  }

  /** However the service goes on from here, it has been a good one from the start. */
  ghost predicate Leads(m: Market, settled: nat, m': Market, settled': nat, k: Id, a: Asset, price: Price, max: nat) {
    forall r :: GoodService(m', r, k, a, price, settled', max) ==> GoodService(m, r, k, a, price, settled, max)
  }

  /** Where a service is between two turns. */
  ghost predicate Serving(m: Market, settled: nat, m': Market, settled': nat, k: Id, a: Asset, price: Price, max: nat) {
    CanServe(m', k, a, price, settled', max) && Leads(m, settled, m', settled', k, a, price, max)
  }

  /** The service has ended well with a turn, or x more units have been served. */
  ghost predicate ServedTo(m: Market, m': Market, done: bool, ok: bool, x: nat, k: Id, a: Asset, price: Price, settled: nat, max: nat) {
    && (done ==> GoodService(m, if ok then Paid(m', settled) else Refused, k, a, price, settled, max))
    && (!done ==> Goes(m, m', k, a, price, settled, x, max) && CanServe(m', k, a, price, settled + x, max))
  }

  lemma TurnEnds(m: Market, m': Market, r: Service, ok: bool, swan: bool, x: nat, k: Id, a: Asset, price: Price, settled: nat, max: nat)
    requires k in m.settles && (!ok ==> r.Refused?)
    requires ok && swan ==> r.BlackSwan? && m' == CancelSettle(m, k)
    requires ok && !swan ==> r == Paid(m', x)
    requires r.Refused? ==> GoodService(m, Refused, k, a, price, settled, max)
    requires r.BlackSwan? ==> GoodService(m, Paid(CancelSettle(m, k), settled), k, a, price, settled, max)
    requires r.Paid? ==> CanServe(r.market, k, a, price, settled + r.amount, max) && Goes(m, r.market, k, a, price, settled, r.amount, max)
    ensures ServedTo(m, m', !ok || swan, ok, x, k, a, price, settled, max)
  {}

  /** One more turn of it, which may have been the last. */
  lemma ServedOn(m: Market, settled0: nat, m1: Market, settled: nat, m': Market, x: nat, done: bool, ok: bool,
                 k: Id, a: Asset, price: Price, max: nat)
    requires Serving(m, settled0, m1, settled, k, a, price, max) && ServedTo(m1, m', done, ok, x, k, a, price, settled, max)
    ensures done ==> GoodService(m, if ok then Paid(m', settled) else Refused, k, a, price, settled0, max)
    ensures !done ==> Serving(m, settled0, m', settled + x, k, a, price, max)
  {
    if done {
      LeadsTo(m, settled0, m1, settled, if ok then Paid(m', settled) else Refused, k, a, price, max);
    } else {
      LeadsOn(m, settled0, m1, settled, m', x, k, a, price, max);
    }
  }

  lemma LeadsTo(m: Market, settled: nat, m': Market, settled': nat, r: Service, k: Id, a: Asset, price: Price, max: nat)
    requires Leads(m, settled, m', settled', k, a, price, max) && GoodService(m', r, k, a, price, settled', max)
    ensures GoodService(m, r, k, a, price, settled, max)
  {}

  lemma NothingLeft(m: Market, settled: nat, m': Market, settled': nat, k: Id, a: Asset, price: Price, max: nat)
    requires Serving(m, settled, m', settled', k, a, price, max) && (settled' == max || k !in m'.settles)
    ensures GoodService(m, Paid(m', settled'), k, a, price, settled, max)
  {
    NothingToServe(m', k, a, price, settled', max);
    LeadsTo(m, settled, m', settled', Paid(m', settled'), k, a, price, max);
  }

  lemma LeadsOn(m: Market, settled: nat, m1: Market, settled1: nat, m': Market, x: nat, k: Id, a: Asset, price: Price, max: nat)
    requires Leads(m, settled, m1, settled1, k, a, price, max) && Goes(m1, m', k, a, price, settled1, x, max)
    ensures Leads(m, settled, m', settled1 + x, k, a, price, max)
  {
    forall r | GoodService(m', r, k, a, price, settled1 + x, max) ensures GoodService(m, r, k, a, price, settled, max) {
      ServedOutLater(m1, m', r, k, a, price, x, settled1, max);
    }
  }
}
