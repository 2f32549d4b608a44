/** The budget at the maintenance interval: witnesses, then workers, out of the reserve of the core asset. */
module Budget {
  import opened Arithmetic
  import opened Sums

  type Id = nat

  const CYCLE_RATE: nat := 17
  const CYCLE_RATE_UNIT: nat := 0x1_0000_0000
  const DAY: nat := 86400

  datatype Kind = Refund | Vesting | Burn

  datatype Worker = Worker(id: Id, votes: nat, dailyPay: nat, kind: Kind)

  /** Where the core asset is: accumulated fees, the budget for witnesses, vesting balances of workers, the
      null account, and everybody else. */
  datatype Treasury = Treasury(
    supply: int,
    maxSupply: nat,
    fees: nat,
    witnessBudget: nat,
    vesting: map<Id, nat>,
    burned: nat,
    others: nat,
    lastTime: nat)

  function Whole(): (Id, nat) -> int {
    (k: Id, v: nat) => v
  }

  ghost function Held(t: Treasury): int {
    t.fees + t.witnessBudget + SumBy(t.vesting, Whole()) + t.burned + t.others
  }

  ghost predicate Conserved(t: Treasury) {
    Held(t) == t.supply
  }

  /** Counted into circulation no more than there may be. */
  predicate Limited(t: Treasury) {
    t.supply <= t.maxSupply
  }

  // ----- the size of the budget -----------------------------------------------------------------

  /** Fees and what witnesses left over count as reserve again. */
  function Reserve(t: Treasury): int {
    t.maxSupply - t.supply + t.fees + t.witnessBudget
  }

  /** Rounded up, so that no reserve is out of reach. */
  function TotalBudget(t: Treasury, now: nat): (b: nat)
    requires Reserve(t) >= 0
    ensures b <= Reserve(t)
  {
    if t.lastTime == 0 || now <= t.lastTime then 0
    else
      var b := (Reserve(t) * (now - t.lastTime) * CYCLE_RATE + (CYCLE_RATE_UNIT - 1)) / CYCLE_RATE_UNIT;
      if b < Reserve(t) then b else Reserve(t)
  }

  /** While there is a reserve, some of it is released. */
  lemma NeverOutOfReach(t: Treasury, now: nat)
    requires Reserve(t) > 0 && 0 < t.lastTime < now
    ensures TotalBudget(t, now) > 0
  {
    var x := Reserve(t) * (now - t.lastTime);
    MulLess(1, Reserve(t), now - t.lastTime);
    assert x >= 1;
    FloorIff(x * CYCLE_RATE + (CYCLE_RATE_UNIT - 1), CYCLE_RATE_UNIT, 1);
  }

  /** q is what n comes to, divided by d and rounded up. */
  predicate IsCeiling(q: nat, n: nat, d: nat) {
    n <= q * d < n + d
  }

  lemma CeilingIs(n: nat, d: nat)
    requires d > 0
    ensures IsCeiling((n + (d - 1)) / d, n, d)
  {
    FloorIs(n + (d - 1), d);
  }

  /** The reserve's share for the time since the last budget, rounded up, but no more than the reserve. */
  predicate IsTotal(t: Treasury, now: nat, b: nat) {
    var reserve := t.maxSupply - t.supply + t.fees + t.witnessBudget;
    var share := reserve * (now - t.lastTime) * CYCLE_RATE;
    if t.lastTime == 0 || now <= t.lastTime then b == 0
    else b <= reserve && b * CYCLE_RATE_UNIT < share + CYCLE_RATE_UNIT && (b < reserve ==> share <= b * CYCLE_RATE_UNIT)
  }

  lemma TotalIs(t: Treasury, now: nat)
    requires Reserve(t) >= 0
    ensures IsTotal(t, now, TotalBudget(t, now))
  {
    if t.lastTime != 0 && now > t.lastTime {
      var share := Reserve(t) * (now - t.lastTime) * CYCLE_RATE;
      CeilingIs(share, CYCLE_RATE_UNIT);
      MulLess(TotalBudget(t, now), (share + (CYCLE_RATE_UNIT - 1)) / CYCLE_RATE_UNIT, CYCLE_RATE_UNIT);
    }
  }

  // ----- workers --------------------------------------------------------------------------------

  /** Approval first, then age. */
  predicate Before(v: Worker, w: Worker) {
    v.votes > w.votes || (v.votes == w.votes && v.id < w.id)
  }

  predicate Ranked(ws: seq<Worker>) {
    forall i, j :: 0 <= i < j < |ws| ==> Before(ws[i], ws[j])
  }

  function Requested(w: Worker, elapsed: nat): nat {
    if elapsed == DAY then w.dailyPay else w.dailyPay * elapsed / DAY
  }

  lemma RequestedIs(w: Worker, elapsed: nat)
    ensures IsFloor(Requested(w, elapsed), w.dailyPay * elapsed, DAY)
  {
    FloorIs(w.dailyPay * elapsed, DAY);
  }

  /** A refund leaves circulation; other pay goes to the worker's vesting balance or to the null account. */
  function PayOne(t: Treasury, w: Worker, pay: nat): Treasury {
    if pay == 0 then t
    else
      match w.kind
      case Refund => t.(supply := t.supply - pay)
      case Vesting => t.(vesting := t.vesting[w.id := (if w.id in t.vesting then t.vesting[w.id] else 0) + pay])
      case Burn => t.(burned := t.burned + pay)
  }

  /** What each worker gets, in order, until the budget is used up. */
  function Pays(ws: seq<Worker>, elapsed: nat, budget: nat): (ps: seq<nat>)
    ensures |ps| == |ws|
    decreases |ws|
  {
    if ws == [] then []
    else
      var pay := Min(budget, Requested(ws[0], elapsed));
      [pay] + Pays(ws[1..], elapsed, budget - pay)
  }

  function Total(ps: seq<nat>): nat
    decreases |ps|
  {
    if ps == [] then 0 else ps[0] + Total(ps[1..])
  }

  lemma {:induction false} PaysWithin(ws: seq<Worker>, elapsed: nat, budget: nat)
    ensures Total(Pays(ws, elapsed, budget)) <= budget
    decreases |ws|
  {
    if ws != [] {
      PaysWithin(ws[1..], elapsed, budget - Min(budget, Requested(ws[0], elapsed)));
    }
  }

  /** The daily pay for the time that has passed, rounded down, or what is left if that is less. */
  predicate IsShare(w: Worker, elapsed: nat, left: nat, pay: nat) {
    && pay <= left && pay * DAY <= w.dailyPay * elapsed
    && (pay < left ==> w.dailyPay * elapsed < (pay + 1) * DAY)
  }

  lemma ShareIs(w: Worker, elapsed: nat, left: nat)
    ensures IsShare(w, elapsed, left, Min(left, Requested(w, elapsed)))
  {
    RequestedIs(w, elapsed);
    MulLess(Min(left, Requested(w, elapsed)), Requested(w, elapsed), DAY);
  }

  /** Each worker gets its share of what those before it have left. */
  lemma {:induction false} PaysShares(ws: seq<Worker>, elapsed: nat, budget: nat, i: nat)
    requires i < |ws|
    ensures var ps := Pays(ws, elapsed, budget);
      Total(ps[..i]) <= budget && IsShare(ws[i], elapsed, budget - Total(ps[..i]), ps[i])
    decreases |ws|
  {
    var pay := Min(budget, Requested(ws[0], elapsed));
    ShareIs(ws[0], elapsed, budget);
    if i > 0 {
      PaysShares(ws[1..], elapsed, budget - pay, i - 1);
      assert Pays(ws, elapsed, budget)[..i] == [pay] + Pays(ws[1..], elapsed, budget - pay)[..i - 1];
    }
  }

  /** Whoever gets less than asked for has used the budget up: nobody behind is paid. */
  lemma {:induction false} PaidInOrder(ws: seq<Worker>, elapsed: nat, budget: nat, i: nat, j: nat)
    requires i < j < |ws| && Pays(ws, elapsed, budget)[i] < Requested(ws[i], elapsed)
    ensures Pays(ws, elapsed, budget)[j] == 0
    decreases |ws|
  {
    var left := budget - Min(budget, Requested(ws[0], elapsed));
    if i == 0 {
      NothingLeft(ws[1..], elapsed, j - 1);
    } else {
      PaidInOrder(ws[1..], elapsed, left, i - 1, j - 1);
    }
  }

  lemma {:induction false} NothingLeft(ws: seq<Worker>, elapsed: nat, j: nat)
    requires j < |ws|
    ensures Pays(ws, elapsed, 0)[j] == 0
    decreases |ws|
  {
    if j > 0 { NothingLeft(ws[1..], elapsed, j - 1); }
  }

  /** So a worker with more approval is never passed over for one with less. */
  lemma ApprovalCounts(ws: seq<Worker>, elapsed: nat, budget: nat, i: nat, j: nat)
    requires Ranked(ws) && i < |ws| && j < |ws| && Before(ws[i], ws[j])
    requires Pays(ws, elapsed, budget)[j] > 0
    ensures Pays(ws, elapsed, budget)[i] == Requested(ws[i], elapsed)
  {
    assert !Before(ws[j], ws[i]);
    PaysAtMost(ws, elapsed, budget, i);
    if Pays(ws, elapsed, budget)[i] < Requested(ws[i], elapsed) { PaidInOrder(ws, elapsed, budget, i, j); }
  }

  lemma {:induction false} PaysAtMost(ws: seq<Worker>, elapsed: nat, budget: nat, i: nat)
    requires i < |ws|
    ensures Pays(ws, elapsed, budget)[i] <= Requested(ws[i], elapsed)
    decreases |ws|
  {
    if i > 0 { PaysAtMost(ws[1..], elapsed, budget - Min(budget, Requested(ws[0], elapsed)), i - 1); }
  }

  function PayAll(t: Treasury, ws: seq<Worker>, ps: seq<nat>): Treasury
    requires |ps| == |ws|
    decreases |ws|
  {
    if ws == [] then t else PayAll(PayOne(t, ws[0], ps[0]), ws[1..], ps[1..])
  }

  /** Supply and holdings drift apart by exactly what is paid. */
  lemma {:induction false} PayAllHeld(t: Treasury, ws: seq<Worker>, ps: seq<nat>)
    requires |ps| == |ws|
    ensures var t' := PayAll(t, ws, ps);
      && Held(t') - t'.supply == Held(t) - t.supply + Total(ps)
      && t'.supply <= t.supply && t'.maxSupply == t.maxSupply
      && t'.fees == t.fees && t'.witnessBudget == t.witnessBudget && t'.others == t.others
    decreases |ws|
  {
    if ws != [] {
      PayOneHeld(t, ws[0], ps[0]);
      PayAllHeld(PayOne(t, ws[0], ps[0]), ws[1..], ps[1..]);
    }
  }

  lemma PayOneHeld(t: Treasury, w: Worker, pay: nat)
    ensures var t' := PayOne(t, w, pay);
      && Held(t') - t'.supply == Held(t) - t.supply + pay
      && t'.supply <= t.supply && t' == t.(supply := t'.supply, vesting := t'.vesting, burned := t'.burned)
  {
    if w.kind.Vesting? && pay > 0 {
      var was := if w.id in t.vesting then t.vesting[w.id] else 0;
      SumPut<Id, nat>(t.vesting, Whole(), w.id, was + pay);
    }
  }

  /** What of the pays goes to one account's vesting balance, to the null account, and back out of circulation. */
  function PaidTo(ws: seq<Worker>, ps: seq<nat>, kind: Kind, id: Id): nat
    requires |ps| == |ws|
    decreases |ws|
  {
    if ws == [] then 0
    else (if ws[0].kind == kind && (kind.Vesting? ==> ws[0].id == id) then ps[0] else 0) + PaidTo(ws[1..], ps[1..], kind, id)
  }

  function InVesting(t: Treasury, id: Id): nat {
    if id in t.vesting then t.vesting[id] else 0
  }

  /** Everybody gets exactly what is theirs. */
  lemma {:induction false} PayAllPays(t: Treasury, ws: seq<Worker>, ps: seq<nat>, id: Id)
    requires |ps| == |ws|
    ensures var t' := PayAll(t, ws, ps);
      && InVesting(t', id) == InVesting(t, id) + PaidTo(ws, ps, Vesting, id)
      && t'.burned == t.burned + PaidTo(ws, ps, Burn, id)
      && t'.supply == t.supply - PaidTo(ws, ps, Refund, id)
      && t' == t.(vesting := t'.vesting, burned := t'.burned, supply := t'.supply)
    decreases |ws|
  {
    if ws != [] { PayAllPays(PayOne(t, ws[0], ps[0]), ws[1..], ps[1..], id); }
  }

  // ----- the whole ------------------------------------------------------------------------------

  datatype Terms = Terms(now: nat, nextMaintenance: nat, interval: nat, payPerBlock: nat, workersPerDay: nat)

  predicate Sane(p: Terms) {
    p.now < p.nextMaintenance && p.interval > 0
  }

  function WitnessBudget(t: Treasury, p: Terms): (b: nat)
    requires Sane(p) && Reserve(t) >= 0
    ensures b <= TotalBudget(t, p.now)
  {
    var blocks := (p.nextMaintenance - p.now + p.interval - 1) / p.interval;
    Min(p.payPerBlock * blocks, TotalBudget(t, p.now))
  }

  function WorkerBudget(t: Treasury, p: Terms): (b: nat)
    requires Sane(p) && Reserve(t) >= 0
    ensures b + WitnessBudget(t, p) <= TotalBudget(t, p.now)
  {
    Min(p.workersPerDay * (p.nextMaintenance - p.now) / DAY, TotalBudget(t, p.now) - WitnessBudget(t, p))
  }

  /** Witnesses come first: their pay for every block until the next maintenance, as far as there is budget. Workers get
      what they may have a day for the time until then, rounded down, out of the rest. */
  predicate AreBudgets(t: Treasury, p: Terms, total: nat, blocks: nat, witnesses: nat, workers: nat) {
    && p.now < p.nextMaintenance
    && IsTotal(t, p.now, total) && IsCeiling(blocks, p.nextMaintenance - p.now, p.interval)
    && witnesses == Min(p.payPerBlock * blocks, total)
    && workers <= total - witnesses && workers * DAY <= p.workersPerDay * (p.nextMaintenance - p.now)
    && (workers < total - witnesses ==> p.workersPerDay * (p.nextMaintenance - p.now) < (workers + 1) * DAY)
  }

  lemma BudgetsAre(t: Treasury, p: Terms) returns (total: nat, blocks: nat)
    requires Sane(p) && Reserve(t) >= 0
    ensures AreBudgets(t, p, total, blocks, WitnessBudget(t, p), WorkerBudget(t, p))
  {
    var time := p.nextMaintenance - p.now;
    total, blocks := TotalBudget(t, p.now), (time + p.interval - 1) / p.interval;
    TotalIs(t, p.now);
    CeilingIs(time, p.interval);
    FloorIs(p.workersPerDay * time, DAY);
    MulLess(WorkerBudget(t, p), p.workersPerDay * time / DAY, DAY);
  }

  /** What goes to workers, out of their budget. */
  function WorkerPays(t: Treasury, p: Terms, ws: seq<Worker>): (ps: seq<nat>)
    requires Sane(p) && Reserve(t) >= 0
    ensures |ps| == |ws|
  {
    Pays(ws, if p.now > t.lastTime then p.now - t.lastTime else 0, WorkerBudget(t, p))
  }

  /** Old fees and unused pay for witnesses go, the new budgets come; what is left over is not created. */
  function Process(t: Treasury, p: Terms, ws: seq<Worker>): Treasury
    requires Sane(p) && Reserve(t) >= 0
  {
    var ps := WorkerPays(t, p, ws);
    var t1 := PayAll(t, ws, ps);
    t1.(supply := t1.supply + WitnessBudget(t, p) + Total(ps) - t.fees - t.witnessBudget,
        fees := 0, witnessBudget := WitnessBudget(t, p), lastTime := p.now)
  }

  /** Whatever the workers, the time since the last budget and what witnesses left over: units are
      conserved, and no more come into circulation than there may be. */
  lemma ProcessSound(t: Treasury, p: Terms, ws: seq<Worker>)
    requires Sane(p) && Conserved(t) && Limited(t)
    ensures Reserve(t) >= 0
    ensures Conserved(Process(t, p, ws)) && Limited(Process(t, p, ws))
    ensures Process(t, p, ws).supply - t.supply <= TotalBudget(t, p.now) - t.fees - t.witnessBudget
  {
    var ps := WorkerPays(t, p, ws);
    PaysWithin(ws, if p.now > t.lastTime then p.now - t.lastTime else 0, WorkerBudget(t, p));
    PayAllHeld(t, ws, ps);
  }

  /** What is in the books after a budget, apart from what workers get. */
  lemma ProcessTerms(t: Treasury, p: Terms, ws: seq<Worker>)
    requires Sane(p) && Reserve(t) >= 0
    ensures var t' := Process(t, p, ws);
      && t'.fees == 0 && t'.lastTime == p.now && t'.maxSupply == t.maxSupply && t'.others == t.others
      && t'.witnessBudget == WitnessBudget(t, p) && Total(WorkerPays(t, p, ws)) <= WorkerBudget(t, p)
      && t'.vesting == PayAll(t, ws, WorkerPays(t, p, ws)).vesting && t'.burned == PayAll(t, ws, WorkerPays(t, p, ws)).burned
  {
    PayAllHeld(t, ws, WorkerPays(t, p, ws));
    PaysWithin(ws, if p.now > t.lastTime then p.now - t.lastTime else 0, WorkerBudget(t, p));
  }

  // ----- over many intervals ------------------------------------------------------------------------

  /** One maintenance: its terms, and the workers that are active then. */
  datatype Interval = Interval(terms: Terms, workers: seq<Worker>)

  /** Maintenance takes place at later and later times. */
  predicate Later(last: nat, xs: seq<Interval>)
    decreases |xs|
  {
    xs != [] ==> Sane(xs[0].terms) && last <= xs[0].terms.now && Later(xs[0].terms.now, xs[1..])
  }

  function RunAll(t: Treasury, xs: seq<Interval>): (t': Treasury)
    requires Conserved(t) && Limited(t) && Later(t.lastTime, xs)
    ensures Conserved(t') && Limited(t')
    decreases |xs|
  {
    if xs == [] then t
    else
      ProcessSound(t, xs[0].terms, xs[0].workers);
      RunAll(Process(t, xs[0].terms, xs[0].workers), xs[1..])
  }

  /** What one worker gets of the pays of one maintenance. */
  function PaidIn(ws: seq<Worker>, ps: seq<nat>, id: Id): nat
    requires |ps| == |ws|
    decreases |ws|
  {
    if ws == [] then 0 else (if ws[0].id == id then ps[0] else 0) + PaidIn(ws[1..], ps[1..], id)
  }

  /** And over all of them. */
  function PaidOver(t: Treasury, xs: seq<Interval>, id: Id): nat
    requires Conserved(t) && Limited(t) && Later(t.lastTime, xs)
    decreases |xs|
  {
    if xs == [] then 0
    else
      ProcessSound(t, xs[0].terms, xs[0].workers);
      PaidIn(xs[0].workers, WorkerPays(t, xs[0].terms, xs[0].workers), id)
        + PaidOver(Process(t, xs[0].terms, xs[0].workers), xs[1..], id)
  }

  /** The worker is listed once at most, at this pay. */
  predicate ListedOnce(ws: seq<Worker>, id: Id, dailyPay: nat) {
    && (forall i :: 0 <= i < |ws| && ws[i].id == id ==> ws[i].dailyPay == dailyPay)
    && (forall i, j :: 0 <= i < j < |ws| ==> ws[i].id != id || ws[j].id != id)
  }

  lemma {:induction false} PaidInAtMost(ws: seq<Worker>, elapsed: nat, budget: nat, id: Id, dailyPay: nat)
    requires ListedOnce(ws, id, dailyPay)
    ensures PaidIn(ws, Pays(ws, elapsed, budget), id) * DAY <= dailyPay * elapsed
    decreases |ws|
  {
    if ws != [] {
      var left := budget - Min(budget, Requested(ws[0], elapsed));
      if ws[0].id == id {
        ShareIs(ws[0], elapsed, budget);
        PaidNothing(ws[1..], Pays(ws[1..], elapsed, left), id);
      } else {
        PaidInAtMost(ws[1..], elapsed, left, id, dailyPay);
      }
    }
  }

  lemma {:induction false} PaidNothing(ws: seq<Worker>, ps: seq<nat>, id: Id)
    requires |ps| == |ws| && forall i :: 0 <= i < |ws| ==> ws[i].id != id
    ensures PaidIn(ws, ps, id) == 0
    decreases |ws|
  {
    if ws != [] { PaidNothing(ws[1..], ps[1..], id); }
  }

  /** However the intervals are cut, a worker never gets more than its daily pay for all the time between the first and
      the last maintenance. */
  lemma {:induction false} PaidOverAtMost(t: Treasury, xs: seq<Interval>, id: Id, dailyPay: nat)
    requires Conserved(t) && Limited(t) && Later(t.lastTime, xs)
    requires forall i :: 0 <= i < |xs| ==> ListedOnce(xs[i].workers, id, dailyPay)
    ensures RunAll(t, xs).lastTime >= t.lastTime
    ensures PaidOver(t, xs, id) * DAY <= dailyPay * (RunAll(t, xs).lastTime - t.lastTime)
    decreases |xs|
  {
    if xs != [] {
      var p, ws := xs[0].terms, xs[0].workers;
      ProcessSound(t, p, ws);
      ProcessTerms(t, p, ws);
      var t1 := Process(t, p, ws);
      PaidInAtMost(ws, if p.now > t.lastTime then p.now - t.lastTime else 0, WorkerBudget(t, p), id, dailyPay);
      PaidOverAtMost(t1, xs[1..], id, dailyPay);
      Distribute(dailyPay, p.now - t.lastTime, RunAll(t1, xs[1..]).lastTime - p.now);
    }
  }

  lemma Distribute(x: nat, a: nat, b: nat)
    ensures x * (a + b) == x * a + x * b
  {}

  // ----- in place -------------------------------------------------------------------------------

  class Books {
    var treasury: Treasury

    constructor (t: Treasury)
      ensures treasury == t
    {
      treasury := t;
    }

    /** Pays workers in order while there is budget; returns what is left of it. */
    method PayWorkers(ws: seq<Worker>, elapsed: nat, budget: nat) returns (left: nat)
      modifies this
      ensures treasury == PayAll(old(treasury), ws, Pays(ws, elapsed, budget))
      ensures left == budget - Total(Pays(ws, elapsed, budget))
    {
      PaysWithin(ws, elapsed, budget);
      ghost var t, ps := treasury, Pays(ws, elapsed, budget);
      left := budget;
      var i := 0;
      assert ws[0..] == ws && ps[0..] == ps;
      while i < |ws| && left > 0
        invariant i <= |ws|
        invariant PayAll(t, ws, ps) == PayAll(treasury, ws[i..], ps[i..])
        invariant ps[i..] == Pays(ws[i..], elapsed, left) && Total(ps) == budget - left + Total(ps[i..])
      {
        var pay := Min(left, Requested(ws[i], elapsed));
        assert ws[i..][1..] == ws[i + 1..] && ps[i..][1..] == ps[i + 1..];
        treasury := PayOne(treasury, ws[i], pay);
        left := left - pay;
        i := i + 1;
      }
      if i < |ws| { PaysNothing(treasury, ws[i..], elapsed); }
    }

    method ProcessBudget(p: Terms, ws: seq<Worker>)
      requires Sane(p) && Conserved(treasury) && Limited(treasury)
      modifies this
      ensures treasury == Process(old(treasury), p, ws) && Conserved(treasury) && Limited(treasury)
    {
      ProcessSound(treasury, p, ws);
      var t := treasury;
      var witnesses, workers := WitnessBudget(t, p), WorkerBudget(t, p);
      var left := PayWorkers(ws, if p.now > t.lastTime then p.now - t.lastTime else 0, workers);
      var change := witnesses + workers - left - t.fees - t.witnessBudget;
      treasury := treasury.(supply := treasury.supply + change, fees := 0, witnessBudget := witnesses, lastTime := p.now);
    }
  }

  /** Once the budget is used up nothing changes. */
  lemma {:induction false} PaysNothing(t: Treasury, ws: seq<Worker>, elapsed: nat)
    ensures Total(Pays(ws, elapsed, 0)) == 0 && PayAll(t, ws, Pays(ws, elapsed, 0)) == t
    decreases |ws|
  {
    if ws != [] { PaysNothing(t, ws[1..], elapsed); }
  }
}
