/** The fees an account has paid since the last maintenance interval, shared out. */
module FeePayout {
  import opened Arithmetic
  import opened Constants
  import opened Prices
  import opened Sums

  type Account = nat

  function CutFee(x: nat, percent: nat): nat {
    if x == 0 || percent == 0 then 0
    else if percent == HUNDRED_PERCENT then x
    else x * percent / HUNDRED_PERCENT
  }

  lemma CutIsPercent(x: nat, percent: nat)
    ensures CutFee(x, percent) == Percent(x, percent)
  {
    if percent == HUNDRED_PERCENT { FloorIff(x * percent, HUNDRED_PERCENT, x); FloorIff(x * percent, HUNDRED_PERCENT, x + 1); }
  }

  /** Percentages set for an account, and who gets what. */
  datatype Terms = Terms(network: nat, lifetime: nat, rewards: nat, lifetimeReferrer: Account, referrer: Account, registrar: Account)

  /** The share of the two referrers and the registrar who are not the lifetime referrer; an assertion and
      the arithmetic of the original rely on its not being negative. */
  function Referral(x: nat, t: Terms): int {
    x - CutFee(x, t.network) - CutFee(x, t.lifetime)
  }

  lemma TwoCuts(x: nat, p: nat, q: nat)
    requires p + q <= HUNDRED_PERCENT
    ensures Percent(x, p) + Percent(x, q) <= x
  {
    FloorIff(x * p, HUNDRED_PERCENT, Percent(x, p));
    FloorIff(x * q, HUNDRED_PERCENT, Percent(x, q));
    MulLess(p + q, HUNDRED_PERCENT, x);
    assert x * p + x * q == (p + q) * x;
  }

  /** No fee is overdrawn exactly when the two percentages leave something or nothing, but not less. */
  lemma ReferralIff(t: Terms)
    ensures (forall x: nat :: Referral(x, t) >= 0) <==> t.network + t.lifetime <= HUNDRED_PERCENT
  {
    if t.network + t.lifetime <= HUNDRED_PERCENT {
      forall x: nat ensures Referral(x, t) >= 0 {
        CutIsPercent(x, t.network);
        CutIsPercent(x, t.lifetime);
        TwoCuts(x, t.network, t.lifetime);
      }
    } else {
      assert Referral(HUNDRED_PERCENT, t) == HUNDRED_PERCENT - t.network - t.lifetime by {
        CutIsPercent(HUNDRED_PERCENT, t.network);
        CutIsPercent(HUNDRED_PERCENT, t.lifetime);
      }
    }
  }

  // ----- the payout -------------------------------------------------------------------------------

  datatype Ledger = Ledger(supply: int, fees: nat, pending: nat, pendingVested: nat, cashback: map<Account, nat>, others: nat)

  function Whole(): (Account, nat) -> int {
    (k: Account, v: nat) => v
  }

  ghost function Held(l: Ledger): int {
    l.fees + l.pending + l.pendingVested + SumBy(l.cashback, Whole()) + l.others
  }

  /** The chain's own accounts get no cashback: it leaves circulation. */
  function Deposit(l: Ledger, to: Account, x: nat, own: set<Account>): Ledger {
    if x == 0 then l
    else if to in own then l.(supply := l.supply - x)
    else l.(cashback := l.cashback[to := (if to in l.cashback then l.cashback[to] else 0) + x])
  }

  lemma DepositHeld(l: Ledger, to: Account, x: nat, own: set<Account>)
    ensures var l' := Deposit(l, to, x, own);
      Held(l') - l'.supply == Held(l) - l.supply + x && l' == l.(supply := l'.supply, cashback := l'.cashback)
  {
    if x > 0 && to !in own {
      SumPut<Account, nat>(l.cashback, Whole(), to, (if to in l.cashback then l.cashback[to] else 0) + x);
    }
  }

  /** Someone whose membership has run out is replaced as referrer by the lifetime referrer. */
  function Referrer(t: Terms, basic: bool): Account {
    if basic then t.lifetimeReferrer else t.referrer
  }

  /** How a fee is cut. */
  datatype Cuts = Cuts(network: nat, lifetime: nat, referrer: nat, registrar: nat)

  function CutUp(x: nat, t: Terms): Cuts
    requires Referral(x, t) >= 0 && t.rewards <= HUNDRED_PERCENT
  {
    CutIsPercent(Referral(x, t), t.rewards);
    PercentAtMost(Referral(x, t), t.rewards);
    var referrer := CutFee(Referral(x, t), t.rewards);
    Cuts(CutFee(x, t.network), CutFee(x, t.lifetime), referrer, Referral(x, t) - referrer)
  }

  /** Every unit of the fee goes somewhere, and none twice. */
  lemma CutsAddUp(x: nat, t: Terms)
    requires Referral(x, t) >= 0 && t.rewards <= HUNDRED_PERCENT
    ensures var c := CutUp(x, t); c.network + c.lifetime + c.referrer + c.registrar == x
  {}

  /** The network's and the lifetime referrer's percentages of the fee, the referrer's percentage of the rest, all
      rounded down, and the registrar's what is left. */
  predicate AreCuts(x: nat, t: Terms, c: Cuts) {
    && IsFloor(c.network, x * t.network, HUNDRED_PERCENT) && IsFloor(c.lifetime, x * t.lifetime, HUNDRED_PERCENT)
    && c.network + c.lifetime <= x && IsFloor(c.referrer, (x - c.network - c.lifetime) * t.rewards, HUNDRED_PERCENT)
    && c.network + c.lifetime + c.referrer + c.registrar == x
  }

  lemma CutIsFloor(x: nat, percent: nat)
    ensures IsFloor(CutFee(x, percent), x * percent, HUNDRED_PERCENT)
  {
    CutIsPercent(x, percent);
    FloorIs(x * percent, HUNDRED_PERCENT);
  }

  lemma CutsAre(x: nat, t: Terms)
    requires Referral(x, t) >= 0 && t.rewards <= HUNDRED_PERCENT
    ensures AreCuts(x, t, CutUp(x, t))
  {
    CutIsFloor(x, t.network);
    CutIsFloor(x, t.lifetime);
    CutIsFloor(Referral(x, t), t.rewards);
  }

  function Cashback(l: Ledger, v: Account): nat {
    if v in l.cashback then l.cashback[v] else 0
  }

  function If(c: bool, x: nat): nat {
    if c then x else 0
  }

  /** What an account has coming from the cuts of a fee. */
  function ShareOf(t: Terms, basic: bool, c: Cuts, v: Account): nat {
    If(v == t.lifetimeReferrer, c.lifetime) + If(v == (if basic then t.lifetimeReferrer else t.referrer), c.referrer)
    + If(v == t.registrar, c.registrar)
  }

  /** The network has its cut among the accumulated fees, everybody else in their cashback, except the chain's own
      accounts, whose shares leave circulation. */
  ghost predicate Shared(l: Ledger, l': Ledger, t: Terms, basic: bool, c: Cuts, own: set<Account>) {
    && l'.fees == l.fees + c.network
    && (forall v: Account :: Cashback(l', v) == Cashback(l, v) + If(v !in own, ShareOf(t, basic, c, v)))
    && l'.supply == l.supply - If(t.lifetimeReferrer in own, c.lifetime)
                    - If((if basic then t.lifetimeReferrer else t.referrer) in own, c.referrer) - If(t.registrar in own, c.registrar)
    && l'.pending == l.pending && l'.pendingVested == l.pendingVested && l'.others == l.others
  }

  /** One share has come to one account, or left circulation. */
  ghost predicate Deposited(l: Ledger, l': Ledger, to: Account, x: nat, own: set<Account>) {
    && (forall v: Account :: Cashback(l', v) == Cashback(l, v) + If(v !in own, If(v == to, x)))
    && l'.supply == l.supply - If(to in own, x)
    && l' == l.(supply := l'.supply, cashback := l'.cashback)
  }

  lemma DepositDeposits(l: Ledger, to: Account, x: nat, own: set<Account>) returns (l': Ledger)
    ensures l' == Deposit(l, to, x, own) && Deposited(l, l', to, x, own)
  {
    l' := Deposit(l, to, x, own);
  }

  lemma ShareShares(l: Ledger, t: Terms, basic: bool, c: Cuts, own: set<Account>) returns (l': Ledger)
    ensures l' == Share(l, t, basic, c, own) && Shared(l, l', t, basic, c, own)
  {
    var l1 := l.(fees := l.fees + c.network);
    var l2 := DepositDeposits(l1, t.lifetimeReferrer, c.lifetime, own);
    var l3 := DepositDeposits(l2, Referrer(t, basic), c.referrer, own);
    l' := DepositDeposits(l3, t.registrar, c.registrar, own);
    SharedTogether(l, l1, l2, l3, l', t, basic, c, own);
  }

  lemma SharedTogether(l: Ledger, l1: Ledger, l2: Ledger, l3: Ledger, l': Ledger, t: Terms, basic: bool, c: Cuts, own: set<Account>)
    requires l1 == l.(fees := l.fees + c.network) && Deposited(l1, l2, t.lifetimeReferrer, c.lifetime, own)
    requires Deposited(l2, l3, Referrer(t, basic), c.referrer, own) && Deposited(l3, l', t.registrar, c.registrar, own)
    ensures Shared(l, l', t, basic, c, own)
  {
    forall v: Account ensures Cashback(l', v) == Cashback(l, v) + If(v !in own, ShareOf(t, basic, c, v)) {
      assert Cashback(l', v) == Cashback(l3, v) + If(v !in own, If(v == t.registrar, c.registrar));
    }
  }

  function Share(l: Ledger, t: Terms, basic: bool, c: Cuts, own: set<Account>): Ledger {
    var l1 := l.(fees := l.fees + c.network);
    var l2 := Deposit(l1, t.lifetimeReferrer, c.lifetime, own);
    var l3 := Deposit(l2, Referrer(t, basic), c.referrer, own);
    Deposit(l3, t.registrar, c.registrar, own)
  }

  lemma ShareHeld(l: Ledger, t: Terms, basic: bool, c: Cuts, own: set<Account>)
    ensures Gains(l, Share(l, t, basic, c, own), c.network + c.lifetime + c.referrer + c.registrar)
  {
    NetworkGains(l, c.network);
    var l1 := l.(fees := l.fees + c.network);
    var l2 := Deposit(l1, t.lifetimeReferrer, c.lifetime, own);
    var l3 := Deposit(l2, Referrer(t, basic), c.referrer, own);
    var l4 := Deposit(l3, t.registrar, c.registrar, own);
    DepositGains(l1, t.lifetimeReferrer, c.lifetime, own);
    DepositGains(l2, Referrer(t, basic), c.referrer, own);
    DepositGains(l3, t.registrar, c.registrar, own);
    GainsTwice(l, l1, l2, c.network, c.lifetime);
    GainsTwice(l, l2, l3, c.network + c.lifetime, c.referrer);
    GainsTwice(l, l3, l4, c.network + c.lifetime + c.referrer, c.registrar);
  }

  /** So much more is held of what circulates. */
  ghost predicate Gains(l: Ledger, l': Ledger, x: nat) {
    Held(l') - l'.supply == Held(l) - l.supply + x && l'.pending == l.pending && l'.pendingVested == l.pendingVested
  }

  lemma NetworkGains(l: Ledger, x: nat)
    ensures Gains(l, l.(fees := l.fees + x), x)
  {}

  lemma DepositGains(l: Ledger, to: Account, x: nat, own: set<Account>)
    ensures Gains(l, Deposit(l, to, x, own), x)
  {
    DepositHeld(l, to, x, own);
  }

  lemma GainsTwice(l: Ledger, l1: Ledger, l2: Ledger, x: nat, y: nat)
    requires Gains(l, l1, x) && Gains(l1, l2, y)
    ensures Gains(l, l2, x + y)
  {}

  class Statistics {
    var ledger: Ledger

    constructor (l: Ledger)
      ensures ledger == l
    {
      ledger := l;
    }

    /** One kind of pending fees is cut up and shared out. */
    method PayOut(t: Terms, basic: bool, x: nat, own: set<Account>) returns (c: Cuts)
      requires Referral(x, t) >= 0 && t.rewards <= HUNDRED_PERCENT
      modifies this
      ensures AreCuts(x, t, c) && Shared(old(ledger), ledger, t, basic, c, own)
      ensures Held(ledger) - ledger.supply == Held(old(ledger)) - old(ledger).supply + x
    {
      c := CutUp(x, t);
      CutsAre(x, t);
      ShareHeld(ledger, t, basic, c, own);
      ghost var l := ShareShares(ledger, t, basic, c, own);
      ledger := Share(ledger, t, basic, c, own);
    }

    /** Both kinds of pending fees are paid out and are pending no longer; nothing is lost or made. */
    method ProcessFees(t: Terms, basic: bool, own: set<Account>) returns (ghost c: Cuts, ghost d: Cuts, ghost between: Ledger)
      requires t.network + t.lifetime <= HUNDRED_PERCENT && t.rewards <= HUNDRED_PERCENT
      modifies this
      ensures AreCuts(old(ledger).pending, t, c) && Shared(old(ledger), between, t, basic, c, own)
      ensures AreCuts(old(ledger).pendingVested, t, d)
              && Shared(between, ledger.(pending := between.pending, pendingVested := between.pendingVested), t, basic, d, own)
      ensures Held(ledger) - ledger.supply == Held(old(ledger)) - old(ledger).supply
      ensures ledger.pending == 0 && ledger.pendingVested == 0
    {
      ReferralIff(t);
      var x, y := ledger.pending, ledger.pendingVested;
      assert Referral(x, t) >= 0 && Referral(y, t) >= 0;
      c, d, between := Cuts(0, 0, 0, 0), Cuts(0, 0, 0, 0), ledger;
      if x > 0 || y > 0 {
        c := PayOut(t, basic, x, own);
        between := ledger;
        d := PayOut(t, basic, y, own);
        ledger := ledger.(pending := 0, pendingVested := 0);
      }
    }
  }
}
