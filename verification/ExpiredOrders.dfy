/** Orders that have expired are cancelled at the end of a block, at a fee that is never too much for
    their sellers. */
module ExpiredOrders {
  import opened Wrappers
  import opened Arithmetic
  import opened Prices
  import opened Sums
  import opened MarketState
  import opened MarketFill
  import opened Sound
  import opened Ranking
  import opened MarginCalls
  import opened MarginLoop
  import opened CheckCalls
  import opened OrderBook
  import opened Operations
  import opened MarketRun
  import opened MarketEffects

  // ----- filling and cancelling only ever pays out ------------------------------------------------

  ghost predicate Richer(m: Market, m': Market) {
    forall who, a :: Balance(m', who, a) >= Balance(m, who, a)
  }

  lemma RicherTwice(m: Market, m1: Market, m2: Market)
    requires Richer(m, m1) && Richer(m1, m2)
    ensures Richer(m, m2)
  {
    forall who, a ensures Balance(m2, who, a) >= Balance(m, who, a) {
      assert Balance(m1, who, a) >= Balance(m, who, a);
    }
  }

  lemma CreditRicher(m: Market, who: Account, a: Asset, x: nat)
    ensures Richer(m, Credit(m, who, a, x)) && Balance(Credit(m, who, a, x), who, a) == Balance(m, who, a) + x
  {}

  lemma SameBalances(m: Market, m': Market)
    requires m'.balances == m.balances
    ensures Richer(m, m')
  {}

  lemma PayOutRicher(m: Market, who: Account, a: Asset, x: nat)
    requires Fees(m, a)
    ensures Richer(m, PayOut(m, who, a, x))
  {
    FeeAtMost(m.assets[a], x);
    var fee := MarketFill.MarketFee(m.assets[a], x);
    var m1 := AddFees(m, a, fee);
    CreditRicher(m1, who, a, x - fee);
    SameBalances(m, m1);
    RicherTwice(m, m1, PayOut(m, who, a, x));
  }

  lemma CancelRicher(m: Market, id: Id)
    requires id in m.orders
    ensures Richer(m, CancelLimit(m, id))
    ensures Balance(CancelLimit(m, id), m.orders[id].seller, CORE) >= m.orders[id].deferredFee
  {
    var o := m.orders[id];
    var m1 := Credit(m, o.seller, o.sell, o.forSale);
    CreditRicher(m, o.seller, o.sell, o.forSale);
    CreditRicher(m1, o.seller, CORE, o.deferredFee);
    RicherTwice(m, m1, Refund(m, o));
    SameBalances(Refund(m, o), CancelLimit(m, id));
    RicherTwice(m, Refund(m, o), CancelLimit(m, id));
  }

  lemma FillLimitRicher(m: Market, id: Id, pays: nat, receives: nat, cull: bool)
    requires id in m.orders && pays <= m.orders[id].forSale && Fees(m, m.orders[id].receive)
    ensures Richer(m, FillLimit(m, id, pays, receives, cull).0)
  {
    var o := m.orders[id];
    var m1 := PayOut(m, o.seller, o.receive, receives);
    PayOutRicher(m, o.seller, o.receive, receives);
    var m2 := AddPending(m1, o.seller, o.deferredFee);
    SameBalances(m1, m2);
    RicherTwice(m, m1, m2);
    if pays == o.forSale {
      SameBalances(m2, WithoutOrder(m2, id));
      RicherTwice(m, m2, WithoutOrder(m2, id));
    } else {
      var m3 := WithOrder(m2, id, o.(forSale := o.forSale - pays, deferredFee := 0));
      SameBalances(m2, m3);
      RicherTwice(m, m2, m3);
      CancelRicher(m3, id);
      RicherTwice(m, m3, CancelLimit(m3, id));
    }
  }

  lemma FillCallRicher(m: Market, id: Id, pays: nat, receives: nat)
    requires id in m.calls && pays <= m.calls[id].collateral && receives <= m.calls[id].debt
    requires m.calls[id].owed in m.assets
    ensures Richer(m, FillCall(m, id, pays, receives).0)
  {
    var c := m.calls[id];
    var m1 := WithSupply(m, c.owed, m.assets[c.owed].supply - receives);
    SameBalances(m, m1);
    if receives == c.debt {
      var m2 := Credit(m1, c.borrower, c.backing, c.collateral - pays);
      CreditRicher(m1, c.borrower, c.backing, c.collateral - pays);
      RicherTwice(m, m1, m2);
      SameBalances(m2, WithoutCall(m2, id));
      RicherTwice(m, m2, WithoutCall(m2, id));
    } else {
      SameBalances(m, FillCall(m, id, pays, receives).0);
    }
  }

  lemma ExecuteRicher(m: Market, i: Id, j: Id)
    requires Callable(m, i, j)
    ensures Richer(m, Execute(m, i, j))
  {
    NeverOverdrawn(m, i, j);
    PaidOffFrame(m, i, j);
    var (x, pays) := Deal(m, i, j);
    FillCallRicher(m, i, pays, x);
    FillLimitRicher(PaidOff(m, i, j), j, x, pays, true);
    RicherTwice(m, PaidOff(m, i, j), Execute(m, i, j));
  }

  lemma {:induction false} CloseAllRicher(m: Market, a: Asset, price: Price)
    requires WellFormed(m) && price.base > 0
    ensures Richer(m, CloseAll(m, a, price).0)
    decreases |m.calls|
  {
    if Positions(m, a) != map[] {
      var i := CalledFirst(m, a);
      var c := m.calls[i];
      FillCallKeeps(m, i, Seized(c, price), c.debt);
      MinusSize(m.calls, i);
      FillCallRicher(m, i, Seized(c, price), c.debt);
      var m1 := FillCall(m, i, Seized(c, price), c.debt).0;
      CloseAllRicher(m1, a, price);
      RicherTwice(m, m1, CloseAll(m, a, price).0);
    }
  }

  lemma SettleRicher(m: Market, a: Asset, price: Price)
    requires WellFormed(m) && price.base > 0 && Bit(m, a).Some?
    ensures Richer(m, GlobalSettle(m, a, price))
  {
    CloseAllRicher(m, a, price);
    CloseAllKeeps(m, a, price);
    SameBalances(CloseAll(m, a, price).0, GlobalSettle(m, a, price));
    RicherTwice(m, CloseAll(m, a, price).0, GlobalSettle(m, a, price));
  }

  lemma SwanRicher(m: Market, a: Asset, allowed: bool)
    requires WellFormed(m)
    ensures var r := CheckSwan(m, a, allowed); r.Some? ==> Richer(m, r.value.0)
  {
    if Bit(m, a).Some? && Positions(m, a) != map[] {
      var c := m.calls[CalledFirst(m, a)];
      assert CallOk(m, c);
      SettleRicher(m, a, Price(c.debt, c.collateral));
    }
  }

  lemma TurnRicher(m: Market, a: Asset, passed: set<Id>, called: bool, allowed: bool)
    requires WellFormed(m) && Live(m, a)
    ensures match TakeTurn(m, a, passed, called, allowed)
      case Halt(r) => r.Some? ==> Richer(m, r.value.0)
      case Go(_, _) => true
  {
    SwanRicher(m, a, allowed);
    FeedNotZero(m, a);
    SettleRicher(m, a, Bit(m, a).value.feed.value.price);
  }

  lemma {:induction false} CallLoopRicher(m: Market, a: Asset, passed: set<Id>, stale: bool, called: bool, allowed: bool)
    requires WellFormed(m) && Live(m, a)
    ensures var r := CallLoop(m, a, passed, stale, called, allowed); r.Some? ==> Richer(m, r.value.0)
    decreases |m.calls| + |m.orders|
  {
    TurnRicher(m, a, passed, called, allowed);
    GoCallable(m, a, passed, called, allowed);
    match TakeTurn(m, a, passed, called, allowed)
    case Halt(_) =>
    case Go(i, j) =>
      ExecuteShrinks(m, i, j);
      ExecuteKeeps(m, i, j);
      ExecuteTerms(m, i, j);
      ExecuteRicher(m, i, j);
      var used := UsedUp(m, i, j, stale);
      var passed' := if used then passed + {j} else passed;
      CallLoopRicher(Execute(m, i, j), a, passed', used, true, allowed);
      var r := CallLoop(Execute(m, i, j), a, passed', used, true, allowed);
      if r.Some? { RicherTwice(m, Execute(m, i, j), r.value.0); }
  }

  lemma CheckCallOrdersRicher(m: Market, a: Asset, allowed: bool)
    requires WellFormed(m)
    ensures var r := CheckCallOrders(m, a, allowed); r.Some? ==> Richer(m, r.value.0)
  {
    SwanRicher(m, a, allowed);
    if Live(m, a) {
      CallLoopRicher(m, a, {}, false, false, allowed);
    }
  }

  lemma CheckBothRicher(m: Market, sell: Asset, receive: Asset)
    requires Sound.Sound(m)
    ensures var r := CheckBoth(m, sell, receive); r.Some? ==> Richer(m, r.value.0)
  {
    CheckCallOrdersSound(m, sell, true);
    CheckCallOrdersRicher(m, sell, true);
    var r1 := CheckCallOrders(m, sell, true);
    if r1.Some? {
      CheckCallOrdersRicher(r1.value.0, receive, true);
      var r := CheckBoth(m, sell, receive);
      if r.Some? { RicherTwice(m, r1.value.0, r.value.0); }
    }
  }

  // ----- expiry ---------------------------------------------------------------------------------------

  /** The cancellation fee, but no more than what the order has deferred. */
  function Capped(o: LimitOrder, fee: nat): Fee {
    Fee(o.seller, CORE, Min(fee, o.deferredFee), Min(fee, o.deferredFee))
  }

  /** An expired order is cancelled by an operation of its seller. */
  ghost function Expire(m: Market, id: Id, fee: nat): Option<Market>
    requires Healthy(m) && Idle(m) && id in m.orders
  {
    Perform(m, Capped(m.orders[id], fee), Cancel(m.orders[id].seller, id))
  }

  /** What is left of the market when an order has expired. */
  ghost predicate Expired(m: Market, m': Market, id: Id) {
    Healthy(m') && Idle(m') && Shrunk(m, m') && SameFeeds(m, m') && id !in m'.orders
  }

  lemma BookSame(m: Market, f: Fee)
    requires Payable(m, f)
    ensures var m' := Book(m, f);
      SameFeeds(m, m') && m'.orders == m.orders && (forall a :: Askew(m', a) <==> Askew(m, a)) && m'.due == Due(f.asset, f.amount)
  {
    BookFrame(m, f);
  }

  /** Taking the fee changes nothing but a balance. */
  lemma TakenSame(m: Market, m1: Market, payer: Account, id: Id)
    requires Shrunk(m, m1) && SameFeeds(m, m1) && id !in m1.orders && TakeFee(m1, payer).Some?
    ensures var m' := TakeFee(m1, payer).value; Shrunk(m, m') && SameFeeds(m, m') && id !in m'.orders
  {}

  /** What is given back pays the fee, so this throws only on a feed that is askew; and the order is gone. */
  lemma ExpireSucceeds(m: Market, id: Id, fee: nat)
    requires Healthy(m) && Idle(m) && id in m.orders
    ensures var r := Expire(m, id, fee);
      && (r.None? ==> AskewIn(m, m.orders[id].sell, m.orders[id].receive))
      && (r.Some? ==> Expired(m, r.value, id))
  {
    var o := m.orders[id];
    var f := Capped(o, fee);
    BookHealthy(m, f);
    BookSame(m, f);
    ExpireFrom(m, Book(m, f), id, f);
    ExpireIs(m, id, fee);
  }

  /** It is a cancellation by the seller, for the usual fee or the deferred one, whichever is less. */
  lemma ExpireCancels(m: Market, id: Id, fee: nat) returns (paid: nat)
    requires Healthy(m) && Idle(m) && id in m.orders
    ensures var o := m.orders[id];
      && paid <= fee && paid <= o.deferredFee && (paid == fee || paid == o.deferredFee)
      && WithFee(m, Fee(o.seller, CORE, paid, paid), Cancel(o.seller, id), Expire(m, id, fee))
  {
    var f := Capped(m.orders[id], fee);
    paid := f.amount;
    OtherDoes(m, f, Cancel(m.orders[id].seller, id));
  }

  lemma ExpireIs(m: Market, id: Id, fee: nat)
    requires Healthy(m) && Idle(m) && id in m.orders
    ensures var o := m.orders[id];
      var m1 := Book(m, Capped(o, fee));
      && Healthy(m1)
      && Expire(m, id, fee) == (match CancelOrder(m1, o.seller, id) case None => None case Some(m2) => TakeFee(m2, o.seller))
  {
    BookHealthy(m, Capped(m.orders[id], fee));
  }

  /** The same from where the fee has been booked. */
  lemma ExpireFrom(m: Market, m1: Market, id: Id, f: Fee)
    requires Healthy(m1) && id in m1.orders && m1.due == Due(CORE, f.amount) && f.amount <= m1.orders[id].deferredFee
    requires m1.orders == m.orders && SameFeeds(m, m1) && forall a :: Askew(m1, a) <==> Askew(m, a)
    ensures match CancelOrder(m1, m1.orders[id].seller, id)
      case None => AskewIn(m, m.orders[id].sell, m.orders[id].receive)
      case Some(m2) => var r := TakeFee(m2, m1.orders[id].seller); r.Some? && Expired(m, r.value, id)
  {
    CancelOrderKeeps(m1, m1.orders[id].seller, id);
    if CancelOrder(m1, m1.orders[id].seller, id).Some? { CancelledExpires(m, m1, id, f); }
  }

  lemma CancelledExpires(m: Market, m1: Market, id: Id, f: Fee)
    requires Healthy(m1) && id in m1.orders && m1.due == Due(CORE, f.amount) && f.amount <= m1.orders[id].deferredFee
    requires m1.orders == m.orders && SameFeeds(m, m1) && CancelOrder(m1, m1.orders[id].seller, id).Some?
    ensures var r := TakeFee(CancelOrder(m1, m1.orders[id].seller, id).value, m1.orders[id].seller);
      r.Some? && Expired(m, r.value, id)
  {
    var seller := m1.orders[id].seller;
    var m2 := CancelOrder(m1, seller, id).value;
    CancelOrderKeeps(m1, seller, id);
    CancelPays(m1, id, f);
    TakenSame(m1, m2, seller, id);
    TakeFeeSound(m2, seller);
    FromBooked(m, m1, TakeFee(m2, seller).value);
  }

  lemma FromBooked(m: Market, m1: Market, m': Market)
    requires m1.orders == m.orders && SameFeeds(m, m1) && Shrunk(m1, m') && SameFeeds(m1, m')
    ensures Shrunk(m, m') && SameFeeds(m, m')
  {}

  lemma CancelPays(m: Market, id: Id, f: Fee)
    requires Healthy(m) && id in m.orders && m.due == Due(CORE, f.amount) && f.amount <= m.orders[id].deferredFee
    ensures var o := m.orders[id];
      var r := CancelOrder(m, o.seller, id);
      r.Some? ==> TakeFee(r.value, o.seller).Some? && Shrunk(m, r.value) && SameFeeds(m, r.value) && id !in r.value.orders
  {
    var o := m.orders[id];
    CancelLimitSound(m, id);
    CancelLimitKeeps(m, id);
    CancelRicher(m, id);
    var m1 := CancelLimit(m, id);
    CheckBothSound(m1, o.sell, o.receive);
    CheckBothRicher(m1, o.sell, o.receive);
    assert Shrunk(m, m1);
    var r := CheckBoth(m1, o.sell, o.receive);
    if r.Some? {
      ShrunkTwice(m, m1, r.value.0);
      assert Balance(r.value.0, o.seller, CORE) >= Balance(m1, o.seller, CORE);
    }
  }

  /** It does throw when the asset for sale backs itself and has a feed, since then there is no price to search
      for margin calls from. */
  lemma SelfBackedStops(m: Market, id: Id, fee: nat)
    requires Healthy(m) && Idle(m) && id in m.orders
    requires var a := m.orders[id].sell; Unsettled(m, a) && Bit(m, a).value.backing == a && Bit(m, a).value.feed.Some?
    ensures Expire(m, id, fee).None?
  {
    var o := m.orders[id];
    var m1 := Book(m, Capped(o, fee));
    BookHealthy(m, Capped(o, fee));
    BookSame(m, Capped(o, fee));
    CancelLimitSound(m1, id);
    CancelLimitKeeps(m1, id);
    assert SameFeed(m.assets[o.sell].bit, m1.assets[o.sell].bit) && Unsettled(m1, o.sell);
    assert CheckSwan(CancelLimit(m1, id), o.sell, true).None?;
  }

  /** All orders that have expired, the first to expire first; margin calls may have filled some by
      the time their turn comes. */
  ghost function ExpireAll(m: Market, expired: seq<Id>, fee: nat): Option<Market>
    requires Healthy(m) && Idle(m)
    decreases |expired|
  {
    if expired == [] then Some(m)
    else if expired[0] !in m.orders then ExpireAll(m, expired[1..], fee)
    else
      ExpireSucceeds(m, expired[0], fee);
      var m1 :- Expire(m, expired[0], fee);
      ExpireAll(m1, expired[1..], fee)
  }

  /** The block goes on: every expired order is gone, and no other has grown. What may stop it is a feed that
      is askew, and nothing else. */
  lemma {:induction false} ExpireAllSucceeds(m: Market, expired: seq<Id>, fee: nat)
    requires Healthy(m) && Idle(m)
    ensures var r := ExpireAll(m, expired, fee);
      && (r.None? ==> exists a :: Askew(m, a))
      && (r.Some? ==> Healthy(r.value) && Idle(r.value) && Shrunk(m, r.value) && forall id :: id in expired ==> id !in r.value.orders)
    decreases |expired|
  {
    if expired != [] {
      var id := expired[0];
      if id !in m.orders {
        ExpireAllSucceeds(m, expired[1..], fee);
      } else {
        ExpireSucceeds(m, id, fee);
        var r1 := Expire(m, id, fee);
        if r1.Some? {
          ExpireAllSucceeds(r1.value, expired[1..], fee);
          var r := ExpireAll(r1.value, expired[1..], fee);
          if r.Some? {
            ShrunkTwice(m, r1.value, r.value);
          } else {
            var a :| Askew(r1.value, a);
            AskewBefore(m, r1.value, a);
          }
        }
      }
      assert expired == [id] + expired[1..];
    }
  }
}
