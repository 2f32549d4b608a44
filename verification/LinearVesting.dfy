/** Linear vesting with a cliff. */
module LinearVesting {
  import opened Arithmetic

  datatype Policy = Policy(begin: nat, cliff: nat, duration: nat, beginBalance: nat)

  /** Whether anything has been released. */
  predicate Started(p: Policy, now: nat) {
    now > p.begin && now - p.begin >= p.cliff
  }

  function Fraction(x: nat, t: nat, d: nat): nat
    requires d > 0
  {
    x * t / d
  }

  /** What has vested, cliff or not. */
  function Vested(p: Policy, now: nat): nat
    requires now > p.begin
  {
    if now - p.begin < p.duration then Fraction(p.beginBalance, now - p.begin, p.duration) else p.beginBalance
  }

  /** Signed, as the original computes it; its assertions say that it and what was withdrawn are not negative. */
  function Allowed(p: Policy, balance: nat, now: nat): int {
    if Started(p, now) then Vested(p, now) - (p.beginBalance - balance) else 0
  }

  predicate AssertionsHold(p: Policy, balance: nat, now: nat) {
    Started(p, now) ==> p.beginBalance - balance >= 0 && Allowed(p, balance, now) >= 0
  }

  lemma VestedAtMost(p: Policy, now: nat)
    requires now > p.begin
    ensures Vested(p, now) <= p.beginBalance
  {
    if now - p.begin < p.duration { FractionAtMost(p.beginBalance, now - p.begin, p.duration); }
  }

  /** The share of the time that has passed, rounded down, and all of it when it is over. */
  lemma VestedIs(p: Policy, now: nat)
    requires now > p.begin
    ensures now - p.begin < p.duration ==> IsFloor(Vested(p, now), p.beginBalance * (now - p.begin), p.duration)
    ensures now - p.begin >= p.duration ==> Vested(p, now) == p.beginBalance
  {
    if now - p.begin < p.duration { FloorIs(p.beginBalance * (now - p.begin), p.duration); }
  }

  /** So much may be taken out in all: nothing before the cliff has passed, the share of the time that has passed until
      the end, everything then. */
  predicate MayBeOut(p: Policy, out: nat, now: nat) {
    now > p.begin && now >= p.begin + p.cliff && out <= p.beginBalance
    && (now < p.begin + p.duration ==> out * p.duration <= p.beginBalance * (now - p.begin))
  }

  /** A withdrawal is allowed exactly when what is out with it may be. */
  lemma AllowedIff(p: Policy, balance: nat, time: nat, now: nat, x: nat)
    requires Valid(p, balance, time) && time <= now && x > 0
    ensures x <= Allowed(p, balance, now) <==> MayBeOut(p, p.beginBalance - balance + x, now)
  {
    if Started(p, now) {
      VestedAtMost(p, now);
      if now - p.begin < p.duration {
        FloorIff(p.beginBalance * (now - p.begin), p.duration, p.beginBalance - balance + x);
      }
    }
  }

  lemma FractionAtMost(x: nat, t: nat, d: nat)
    requires t < d
    ensures Fraction(x, t, d) <= x
  {
    var q := Fraction(x, t, d);
    FloorIff(x * t, d, q);
    MulLess(t, d, x);
    if q > x { MulLess(x + 1, q, d); }
  }

  lemma FractionGrows(x: nat, t: nat, u: nat, d: nat)
    requires t <= u && d > 0
    ensures Fraction(x, t, d) <= Fraction(x, u, d)
  {
    MulLess(t, u, x);
    FloorMonotone(x * t, x * u, d);
  }

  /** Vesting never goes back. */
  lemma VestedGrows(p: Policy, now: nat, later: nat)
    requires p.begin < now <= later
    ensures Vested(p, now) <= Vested(p, later)
  {
    if later - p.begin < p.duration {
      FractionGrows(p.beginBalance, now - p.begin, later - p.begin, p.duration);
    } else {
      VestedAtMost(p, now);
    }
  }

  /** No more is gone than had vested by the time. */
  predicate Valid(p: Policy, balance: nat, time: nat) {
    balance <= p.beginBalance && (balance < p.beginBalance ==> Started(p, time) && p.beginBalance - balance <= Vested(p, time))
  }

  lemma ValidHolds(p: Policy, balance: nat, time: nat, now: nat)
    requires Valid(p, balance, time) && time <= now
    ensures Valid(p, balance, now) && AssertionsHold(p, balance, now) && 0 <= Allowed(p, balance, now) <= balance
  {
    if Started(p, now) { VestedAtMost(p, now); }
    if Started(p, time) { VestedGrows(p, time, now); }
  }

  /** The assertions hold from some time on. */
  ghost predicate HoldFrom(p: Policy, balance: nat, time: nat) {
    forall now :: now >= time ==> AssertionsHold(p, balance, now)
  }

  lemma ValidHoldsOn(p: Policy, balance: nat, time: nat)
    requires Valid(p, balance, time)
    ensures HoldFrom(p, balance, time)
  {
    forall now | now >= time ensures AssertionsHold(p, balance, now) { ValidHolds(p, balance, time, now); }
  }

  /** Deposits are not refused, though the policy is not made for them. From a balance in order the assertions
      go on holding after a deposit if and only if it puts back no more than has been withdrawn. */
  lemma DepositHoldsIff(p: Policy, balance: nat, x: nat, time: nat)
    requires Valid(p, balance, time)
    ensures HoldFrom(p, balance + x, time) <==> balance + x <= p.beginBalance
  {
    if balance + x <= p.beginBalance {
      ValidHoldsOn(p, balance + x, time);
    } else {
      var late := time + p.begin + p.cliff + 1;
      assert Started(p, late) && !AssertionsHold(p, balance + x, late);
    }
  }

  datatype Act = Withdraw(now: nat, x: nat) | Deposit(now: nat, x: nat)

  function Step(p: Policy, balance: nat, a: Act): nat {
    match a
    case Withdraw(now, x) => if x > Allowed(p, balance, now) || x > balance then balance else balance - x
    case Deposit(_, x) => balance + x
  }

  predicate Ordered(acts: seq<Act>, time: nat)
    decreases |acts|
  {
    acts != [] ==> time <= acts[0].now && Ordered(acts[1..], acts[0].now)
  }

  function Run(p: Policy, balance: nat, acts: seq<Act>): nat
    decreases |acts|
  {
    if acts == [] then balance else Run(p, Step(p, balance, acts[0]), acts[1..])
  }

  function LastTime(acts: seq<Act>, time: nat): nat {
    if acts == [] then time else acts[|acts| - 1].now
  }

  /** No deposit takes the balance above what it was at the beginning. */
  predicate NeverOverfull(p: Policy, balance: nat, acts: seq<Act>)
    decreases |acts|
  {
    acts != [] ==> Step(p, balance, acts[0]) <= p.beginBalance && NeverOverfull(p, Step(p, balance, acts[0]), acts[1..])
  }

  /** After every act the assertions hold from then on. */
  ghost predicate AlwaysHold(p: Policy, balance: nat, acts: seq<Act>)
    decreases |acts|
  {
    acts != [] ==>
      && HoldFrom(p, Step(p, balance, acts[0]), acts[0].now)
      && AlwaysHold(p, Step(p, balance, acts[0]), acts[1..])
  }

  lemma StepHoldsIff(p: Policy, balance: nat, a: Act, time: nat)
    requires Valid(p, balance, time) && time <= a.now
    ensures HoldFrom(p, Step(p, balance, a), a.now) <==> Step(p, balance, a) <= p.beginBalance
    ensures Step(p, balance, a) <= p.beginBalance ==> Valid(p, Step(p, balance, a), a.now)
  {
    ValidHolds(p, balance, time, a.now);
    match a
    case Deposit(now, x) => DepositHoldsIff(p, balance, x, now);
    case Withdraw(now, _) => ValidHoldsOn(p, Step(p, balance, a), now);
  }

  /** Whatever is withdrawn and deposited when: the assertions hold all along if and only if no deposit takes
      the balance above what it was at the beginning, and then never more is out than has vested. */
  lemma {:induction false} RunHoldsIff(p: Policy, balance: nat, acts: seq<Act>, time: nat)
    requires Valid(p, balance, time) && Ordered(acts, time)
    ensures AlwaysHold(p, balance, acts) <==> NeverOverfull(p, balance, acts)
    ensures NeverOverfull(p, balance, acts) ==> Valid(p, Run(p, balance, acts), LastTime(acts, time))
    decreases |acts|
  {
    if acts != [] {
      StepHoldsIff(p, balance, acts[0], time);
      if Step(p, balance, acts[0]) <= p.beginBalance {
        RunHoldsIff(p, Step(p, balance, acts[0]), acts[1..], acts[0].now);
      }
    }
  }

  lemma {:induction false} OnlyWithdrawals(p: Policy, balance: nat, acts: seq<Act>)
    requires balance <= p.beginBalance && forall a :: a in acts ==> a.Withdraw?
    ensures NeverOverfull(p, balance, acts)
    decreases |acts|
  {
    if acts != [] { OnlyWithdrawals(p, Step(p, balance, acts[0]), acts[1..]); }
  }

  /** Without deposits they always do. */
  lemma RunValid(p: Policy, balance: nat, acts: seq<Act>, time: nat)
    requires Valid(p, balance, time) && Ordered(acts, time) && forall a :: a in acts ==> a.Withdraw?
    ensures Valid(p, Run(p, balance, acts), LastTime(acts, time)) && AlwaysHold(p, balance, acts)
  {
    OnlyWithdrawals(p, balance, acts);
    RunHoldsIff(p, balance, acts, time);
  }
}
