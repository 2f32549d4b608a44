/** A balance that vests under one of two policies. */
module VestingBalance {
  import C = CoinDays
  import L = LinearVesting

  datatype Policy = CoinDays(c: C.Policy) | Linear(l: L.Policy)

  class Balance {
    var balance: nat
    var policy: Policy

    constructor (amount: nat, initial: Policy)
      ensures balance == amount && policy == initial
    {
      balance, policy := amount, initial;
    }

    /** The balance as an account that vests by coin-days. */
    function Holding(): C.Holding
      requires policy.CoinDays?
      reads this
    {
      C.Holding(balance, policy.c)
    }

    predicate Due(now: nat)
      reads this
    {
      policy.CoinDays? ==> policy.c.updated <= now
    }

    function AllowedWithdraw(now: nat): int
      requires Due(now)
      reads this
    {
      match policy
      case CoinDays(c) => C.Allowed(balance, c, now)
      case Linear(l) => L.Allowed(l, balance, now)
    }

    /** Deposits are allowed under either policy. */
    method Deposit(now: nat, x: nat)
      requires Due(now)
      modifies this
      ensures old(policy).CoinDays? ==> policy.CoinDays? && Holding() == C.Step(old(Holding()), C.Deposit(now, x))
      ensures old(policy).Linear? ==> policy == old(policy) && balance == old(balance) + x
    {
      match policy
      case CoinDays(c) =>
        policy := CoinDays(C.Updated(balance, c, now));
        balance := balance + x;
      case Linear(_) =>
        balance := balance + x;
    }

    /** A linear policy throws. */
    method DepositVested(now: nat, x: nat) returns (ok: bool)
      requires Due(now)
      modifies this
      ensures ok <==> old(policy).CoinDays?
      ensures ok ==> policy.CoinDays? && Holding() == C.Step(old(Holding()), C.DepositVested(now, x))
      ensures !ok ==> policy == old(policy) && balance == old(balance)
    {
      match policy
      case CoinDays(c) =>
        policy := CoinDays(C.Vest(C.Updated(balance, c, now), x));
        balance := balance + x;
        ok := true;
      case Linear(_) =>
        ok := false;
    }

    /** Refused unless allowed; the assertions on the way hold. */
    method Withdraw(now: nat, x: nat) returns (ok: bool)
      requires Due(now)
      requires policy.CoinDays? ==> C.Valid(Holding())
      requires policy.Linear? ==> exists time: nat :: time <= now && L.Valid(policy.l, balance, time)
      modifies this
      ensures ok <==> x <= old(AllowedWithdraw(now))
      ensures balance == if ok then old(balance) - x else old(balance)
      ensures old(policy).CoinDays? ==> policy.CoinDays? && Holding() == C.Step(old(Holding()), C.Withdraw(now, x))
      ensures old(policy).Linear? ==> policy == old(policy) && L.Valid(policy.l, balance, now)
    {
      ok := x <= AllowedWithdraw(now);
      if !ok {
        if policy.Linear? { KeptValid(policy.l, balance, now); }
        return;
      }
      match policy
      case CoinDays(c) =>
        C.AllowedIsCovered(Holding(), now, x);
        var p := C.Updated(balance, c, now);
        policy := CoinDays(p.(earned := p.earned - x * C.Needed(p)));
        balance := balance - x;
      case Linear(l) =>
        KeptValid(l, balance, now);
        balance := balance - x;
    }
  }

  lemma KeptValid(p: L.Policy, balance: nat, now: nat)
    requires exists time: nat :: time <= now && L.Valid(p, balance, time)
    ensures L.Valid(p, balance, now) && 0 <= L.Allowed(p, balance, now) <= balance
  {
    var time: nat :| time <= now && L.Valid(p, balance, time);
    L.ValidHolds(p, balance, time, now);
  }
}
