/** Vesting by coin-seconds: a balance earns one coin-second per unit and second, up to what it takes to
    vest all of it. The original updates the account lazily; the reference machine does it every second. */
module CoinDays {
  import opened Arithmetic
  import opened Constants

  const TWO_TO_THE_63: nat := 0x8000_0000_0000_0000
  const TWO_TO_THE_64: nat := 0x1_0000_0000_0000_0000
  const TWO_TO_THE_128: nat := 0x1_0000_0000_0000_0000_0000_0000_0000_0000

  datatype Policy = Policy(seconds: nat, earned: nat, startClaim: nat, updated: nat)

  /** Coin-seconds per unit it takes to vest. */
  function Needed(p: Policy): (k: nat)
    ensures k > 0
  {
    if p.seconds == 0 then 1 else p.seconds
  }

  function Cap(balance: nat, p: Policy): nat {
    balance * Needed(p)
  }

  function Earned(balance: nat, p: Policy, now: nat): nat
    requires p.updated <= now
  {
    Min(p.earned + balance * (now - p.updated), Cap(balance, p))
  }

  function Updated(balance: nat, p: Policy, now: nat): Policy
    requires p.updated <= now
  {
    p.(earned := Earned(balance, p, now), updated := now)
  }

  function Allowed(balance: nat, p: Policy, now: nat): nat
    requires p.updated <= now
  {
    if now <= p.startClaim then 0 else Earned(balance, p, now) / Needed(p)
  }

  // ----- machine arithmetic ----------------------------------------------------------------------

  /** The value of a product of signed 64-bit type. */
  function Wrap64(x: nat): int {
    var r := x % TWO_TO_THE_64;
    if r < TWO_TO_THE_63 then r else r - TWO_TO_THE_64
  }

  function Wrap128(x: int): nat {
    x % TWO_TO_THE_128
  }

  lemma WrapsIff(x: nat)
    ensures Wrap64(x) == x <==> x < TWO_TO_THE_63
  {}

  // ----- the account -----------------------------------------------------------------------------

  datatype Holding = Holding(balance: nat, policy: Policy)

  datatype Event = Deposit(now: nat, x: nat) | DepositVested(now: nat, x: nat) | Withdraw(now: nat, x: nat)

  /** New coin-seconds are multiplied out in 64 bits before they are added to the 128-bit total. */
  function Vest(p: Policy, x: nat): Policy {
    p.(earned := Wrap128(p.earned + Wrap64(x * Needed(p))))
  }

  lemma EarnedAtMost(balance: nat, p: Policy, now: nat)
    requires p.updated <= now
    ensures Earned(balance, p, now) <= Cap(balance, p)
    ensures Earned(balance, p, now) / Needed(p) <= balance
  {
    FloorMonotone(Earned(balance, p, now), Cap(balance, p), Needed(p));
    FloorIff(Cap(balance, p), Needed(p), Cap(balance, p) / Needed(p));
    if Cap(balance, p) / Needed(p) > balance { MulLess(balance + 1, Cap(balance, p) / Needed(p), Needed(p)); }
  }

  /** What may be withdrawn is in the balance, and enough has been earned for it: neither assertion fires. */
  lemma AllowedIsCovered(a: Holding, now: nat, x: nat)
    requires a.policy.updated <= now && x <= Allowed(a.balance, a.policy, now)
    ensures x <= a.balance
    ensures x * Needed(a.policy) <= Updated(a.balance, a.policy, now).earned
  {
    EarnedAtMost(a.balance, a.policy, now);
    FloorIff(Earned(a.balance, a.policy, now), Needed(a.policy), x);
    if x == 0 { assert x * Needed(a.policy) == 0; }
  }

  /** A withdrawal is allowed exactly when claims have started, the balance has it, and as many seconds as it takes to
      vest have been earned for every unit of it. */
  lemma AllowedIff(a: Holding, now: nat, x: nat)
    requires a.policy.updated <= now && x > 0
    ensures var p := a.policy;
      x <= Allowed(a.balance, p, now) <==>
        now > p.startClaim && x <= a.balance
        && x * (if p.seconds == 0 then 1 else p.seconds) <= p.earned + a.balance * (now - p.updated)
  {
    var k := Needed(a.policy);
    FloorIff(Earned(a.balance, a.policy, now), k, x);
    if x <= a.balance { MulLess(x, a.balance, k); } else { MulLess(a.balance + 1, x, k); }
  }

  /** A withdrawal that is not allowed is refused. */
  function Step(a: Holding, e: Event): Holding
    requires a.policy.updated <= e.now
  {
    var p := Updated(a.balance, a.policy, e.now);
    match e
    case Deposit(_, x) => Holding(a.balance + x, p)
    case DepositVested(_, x) => Holding(a.balance + x, Vest(p, x))
    case Withdraw(now, x) =>
      if x > Allowed(a.balance, a.policy, now) then a
      else
        AllowedIsCovered(a, now, x);
        Holding(a.balance - x, p.(earned := p.earned - x * Needed(p)))
  }

  /** Never more earned than vests the whole balance; and all amounts in the ranges of their types. */
  predicate Valid(a: Holding) {
    && a.balance <= MAX_SHARES && a.policy.seconds < TWO_TO_THE_32 && a.policy.updated < TWO_TO_THE_32
    && a.policy.earned <= Cap(a.balance, a.policy)
  }

  /** An event in its ranges, not before the last one; deposits that vest at once are small enough. */
  predicate Timely(a: Holding, e: Event) {
    && a.policy.updated <= e.now < TWO_TO_THE_32
    && (!e.Withdraw? ==> a.balance + e.x <= MAX_SHARES)
    && (e.DepositVested? ==> Fits(a.policy, e.x))
  }

  /** What a caller could check: the product fits into 63 bits. */
  predicate Fits(p: Policy, x: nat) {
    x * Needed(p) < TWO_TO_THE_63
  }

  /** Coin-seconds fit into their 128-bit type, sums included. */
  lemma NeverWraps(a: Holding, now: nat, x: nat)
    requires Valid(a) && a.policy.updated <= now < TWO_TO_THE_32 && x < TWO_TO_THE_63
    ensures a.policy.earned + a.balance * (now - a.policy.updated) < TWO_TO_THE_128
    ensures Earned(a.balance, a.policy, now) + x < TWO_TO_THE_128
  {
    MulLess(a.balance, MAX_SHARES, now - a.policy.updated);
    MulLess(now - a.policy.updated, TWO_TO_THE_32, MAX_SHARES);
    MulLess(a.balance, MAX_SHARES, Needed(a.policy));
    MulLess(Needed(a.policy), TWO_TO_THE_32, MAX_SHARES);
    EarnedAtMost(a.balance, a.policy, now);
  }

  lemma Distribute(a: int, b: int, k: int)
    ensures (a + b) * k == a * k + b * k && (a - b) * k == a * k - b * k
  {}

  lemma StepValid(a: Holding, e: Event)
    requires Valid(a) && Timely(a, e)
    ensures Valid(Step(a, e))
  {
    EarnedAtMost(a.balance, a.policy, e.now);
    match e
    case Deposit(now, x) => Distribute(a.balance, x, Needed(a.policy));
    case DepositVested(now, x) => VestedValid(a, now, x);
    case Withdraw(now, x) => Distribute(a.balance, x, Needed(a.policy));
  }

  lemma VestedValid(a: Holding, now: nat, x: nat)
    requires Valid(a) && Timely(a, DepositVested(now, x))
    ensures Valid(Step(a, DepositVested(now, x)))
  {
    var k := Needed(a.policy);
    EarnedAtMost(a.balance, a.policy, now);
    NeverWraps(a, now, x * k);
    WrapsIff(x * k);
    SmallStays(Earned(a.balance, a.policy, now) + x * k);
    Distribute(a.balance, x, k);
  }

  lemma SmallStays(x: nat)
    requires x < TWO_TO_THE_128
    ensures Wrap128(x) == x
  {}

  /** A deposit that is to vest at once can be withdrawn at once if and only if its coin-seconds fit into 63 bits. */
  lemma VestsAtOnceIff(a: Holding, now: nat, x: nat)
    requires Valid(a) && a.policy.updated <= now < TWO_TO_THE_32 && a.balance + x <= MAX_SHARES
    ensures var a' := Step(a, DepositVested(now, x));
      a'.policy.earned == Earned(a.balance, a.policy, now) + x * Needed(a.policy) <==> Fits(a.policy, x)
  {
    var y := x * Needed(a.policy);
    var e := Earned(a.balance, a.policy, now);
    MulLess(x, MAX_SHARES, Needed(a.policy));
    MulLess(Needed(a.policy), TWO_TO_THE_32, MAX_SHARES);
    NeverWraps(a, now, 0);
    EarnedAtMost(a.balance, a.policy, now);
    MulLess(a.balance, MAX_SHARES, Needed(a.policy));
    WrapsIff(y);
    WrapDiffers(e, y);
  }

  /** Two to the thirty-two units vesting over two to the thirty-one seconds do not fit: the account is
      left with more coin-seconds than its balance can have. */
  lemma TooLargeToVest()
    ensures var a := Step(Holding(0, Policy(0x8000_0000, 0, 0, 0)), DepositVested(1, TWO_TO_THE_32));
      a.balance == TWO_TO_THE_32 && a.policy.earned > Cap(a.balance, a.policy)
  {
    var p := Policy(0x8000_0000, 0, 0, 1);
    assert Updated(0, Policy(0x8000_0000, 0, 0, 0), 1) == p;
    assert Wrap64(TWO_TO_THE_63) + TWO_TO_THE_63 == 0;
    ModUp(Wrap64(TWO_TO_THE_63), TWO_TO_THE_128);
  }

  lemma WrapDiffers(e: nat, y: nat)
    requires e + y < TWO_TO_THE_128 - TWO_TO_THE_64
    ensures Wrap128(e + Wrap64(y)) == e + y <==> y < TWO_TO_THE_63
  {
    WrapsIff(y);
    if y >= TWO_TO_THE_63 {
      var z := e + Wrap64(y);
      assert 0 < Wrap64(y) + TWO_TO_THE_64 && Wrap64(y) < y;
      if z >= 0 {
        assert Wrap128(z) == z;
      } else {
        assert z + TWO_TO_THE_128 == Wrap128(z) by { ModUp(z, TWO_TO_THE_128); }
      }
    }
  }

  // ----- second by second -----------------------------------------------------------------------------

  /** One second at an unchanged balance. */
  function Second(balance: nat, needed: nat, earned: nat): nat {
    Min(earned + balance, balance * needed)
  }

  function Accrue(balance: nat, needed: nat, earned: nat, seconds: nat): nat
    decreases seconds
  {
    if seconds == 0 then earned else Accrue(balance, needed, Second(balance, needed, earned), seconds - 1)
  }

  /** Any number of seconds at once is so many seconds one by one. */
  lemma {:induction false} LazyIsExact(balance: nat, needed: nat, earned: nat, n: nat)
    requires earned <= balance * needed
    ensures Accrue(balance, needed, earned, n) == Min(earned + balance * n, balance * needed)
    decreases n
  {
    if n == 0 {
      assert balance * 0 == 0;
    } else {
      var e := Second(balance, needed, earned);
      LazyIsExact(balance, needed, e, n - 1);
      assert balance * n == balance + balance * (n - 1);
      assert balance * (n - 1) >= 0;
    }
  }

  lemma {:induction false} AccrueTwice(balance: nat, needed: nat, earned: nat, m: nat, n: nat)
    ensures Accrue(balance, needed, Accrue(balance, needed, earned, m), n) == Accrue(balance, needed, earned, m + n)
    decreases m
  {
    if m > 0 { AccrueTwice(balance, needed, Second(balance, needed, earned), m - 1, n); }
  }

  /** The account as it would be if it were kept up to date every second. */
  datatype Ideal = Ideal(balance: nat, earned: nat, time: nat)

  function Advance(i: Ideal, needed: nat, now: nat): Ideal {
    if now <= i.time then i
    else i.(earned := Accrue(i.balance, needed, i.earned, now - i.time), time := now)
  }

  function Pay(i: Ideal, needed: nat, startClaim: nat, x: nat): Ideal
    requires needed > 0
  {
    if i.time <= startClaim || x > i.balance || x * needed > i.earned then i
    else i.(balance := i.balance - x, earned := i.earned - x * needed)
  }

  function IdealStep(i: Ideal, needed: nat, startClaim: nat, e: Event): Ideal
    requires needed > 0
  {
    var j := Advance(i, needed, e.now);
    match e
    case Deposit(_, x) => j.(balance := j.balance + x)
    case DepositVested(_, x) => j.(balance := j.balance + x, earned := j.earned + x * needed)
    case Withdraw(_, x) => if x == 0 then j else Pay(j, needed, startClaim, x)
  }

  /** The lazy account is behind the ideal one by nothing but time. */
  predicate Agrees(a: Holding, i: Ideal) {
    && a.policy.updated <= i.time && a.balance == i.balance
    && Earned(a.balance, a.policy, i.time) == i.earned
  }

  lemma AgreesLater(a: Holding, i: Ideal, now: nat)
    requires Valid(a) && Agrees(a, i) && i.time <= now
    ensures Agrees(a, Advance(i, Needed(a.policy), now)) && Advance(i, Needed(a.policy), now).time == now
  {
    var k, p := Needed(a.policy), a.policy;
    EarnedByNow(a, i.time);
    EarnedByNow(a, now);
    AccrueTwice(a.balance, k, p.earned, i.time - p.updated, now - i.time);
  }

  lemma EarnedByNow(a: Holding, now: nat)
    requires Valid(a) && a.policy.updated <= now
    ensures Earned(a.balance, a.policy, now) == Accrue(a.balance, Needed(a.policy), a.policy.earned, now - a.policy.updated)
  {
    LazyIsExact(a.balance, Needed(a.policy), a.policy.earned, now - a.policy.updated);
  }

  /** An account that has just been updated has earned what it says. */
  lemma FreshlyUpdated(a: Holding, now: nat)
    requires Valid(a) && a.policy.updated == now
    ensures Earned(a.balance, a.policy, now) == a.policy.earned
  {
    assert a.balance * 0 == 0;
  }

  /** What may be withdrawn is what the ideal account would pay. */
  lemma WithdrawAgrees(a: Holding, j: Ideal, x: nat)
    requires Valid(a) && Agrees(a, j) && Timely(a, Withdraw(j.time, x))
    ensures var k := Needed(a.policy);
      Agrees(Step(a, Withdraw(j.time, x)), if x == 0 then j else Pay(j, k, a.policy.startClaim, x))
  {
    var k, e := Needed(a.policy), Withdraw(j.time, x);
    FloorIff(j.earned, k, x);
    EarnedAtMost(a.balance, a.policy, j.time);
    if x <= Allowed(a.balance, a.policy, j.time) {
      AllowedIsCovered(a, j.time, x);
      StepValid(a, e);
      FreshlyUpdated(Step(a, e), j.time);
    }
  }

  lemma DepositAgrees(a: Holding, j: Ideal, e: Event)
    requires Valid(a) && Agrees(a, j) && Timely(a, e) && j.time == e.now && !e.Withdraw?
    ensures var vested := if e.DepositVested? then e.x * Needed(a.policy) else 0;
      Agrees(Step(a, e), j.(balance := j.balance + e.x, earned := j.earned + vested))
  {
    StepValid(a, e);
    FreshlyUpdated(Step(a, e), e.now);
    if e.DepositVested? {
      NeverWraps(a, e.now, e.x * Needed(a.policy));
      WrapsIff(e.x * Needed(a.policy));
    }
  }

  lemma StepAgrees(a: Holding, i: Ideal, e: Event)
    requires Valid(a) && Agrees(a, i) && Timely(a, e) && i.time <= e.now
    ensures Agrees(Step(a, e), IdealStep(i, Needed(a.policy), a.policy.startClaim, e))
    ensures IdealStep(i, Needed(a.policy), a.policy.startClaim, e).time == e.now
  {
    AgreesLater(a, i, e.now);
    var j := Advance(i, Needed(a.policy), e.now);
    if e.Withdraw? { WithdrawAgrees(a, j, e.x); } else { DepositAgrees(a, j, e); }
  }

  lemma StepTerms(a: Holding, e: Event)
    requires a.policy.updated <= e.now
    ensures Step(a, e).policy.seconds == a.policy.seconds && Step(a, e).policy.startClaim == a.policy.startClaim
  {}

  predicate TimelyRun(a: Holding, es: seq<Event>, time: nat)
    decreases |es|
  {
    es != [] ==> time <= es[0].now && Timely(a, es[0]) && TimelyRun(Step(a, es[0]), es[1..], es[0].now)
  }

  function Run(a: Holding, es: seq<Event>, time: nat): Holding
    requires TimelyRun(a, es, time)
    decreases |es|
  {
    if es == [] then a else Run(Step(a, es[0]), es[1..], es[0].now)
  }

  function IdealRun(i: Ideal, needed: nat, startClaim: nat, es: seq<Event>): Ideal
    requires needed > 0
    decreases |es|
  {
    if es == [] then i else IdealRun(IdealStep(i, needed, startClaim, es[0]), needed, startClaim, es[1..])
  }

  /** Over every run of deposits and withdrawals, at whatever times: the lazily updated account agrees
      with second-by-second accrual, and never has earned more than its balance takes to vest. */
  lemma {:induction false} RunAgrees(a: Holding, i: Ideal, es: seq<Event>)
    requires Valid(a) && Agrees(a, i) && TimelyRun(a, es, i.time)
    ensures var a' := Run(a, es, i.time);
      Valid(a') && Agrees(a', IdealRun(i, Needed(a.policy), a.policy.startClaim, es))
    decreases |es|
  {
    if es != [] {
      StepValid(a, es[0]);
      StepAgrees(a, i, es[0]);
      StepTerms(a, es[0]);
      RunAgrees(Step(a, es[0]), IdealStep(i, Needed(a.policy), a.policy.startClaim, es[0]), es[1..]);
    }
  }

  /** A balance can be withdrawn whole exactly when it has earned its cap, which it has after its vesting
      period at the latest. */
  lemma VestedIff(a: Holding, now: nat)
    requires Valid(a) && a.policy.updated <= now && now > a.policy.startClaim
    ensures Allowed(a.balance, a.policy, now) == a.balance
       <==> a.policy.earned + a.balance * (now - a.policy.updated) >= Cap(a.balance, a.policy)
    ensures now - a.policy.updated >= Needed(a.policy) ==> Allowed(a.balance, a.policy, now) == a.balance
  {
    var k := Needed(a.policy);
    EarnedAtMost(a.balance, a.policy, now);
    FloorIff(Earned(a.balance, a.policy, now), k, a.balance);
    if now - a.policy.updated >= k { MulLess(k, now - a.policy.updated, a.balance); }
  }
}
