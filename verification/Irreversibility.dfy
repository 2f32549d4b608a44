/** The last irreversible block, and the undo history that is kept for going back to it. */
module Irreversibility {
  import opened Arithmetic
  import opened Constants
  import opened Counting
  import opened Stacks

  type Witness = nat

  const THRESHOLD: nat := 7000
  const MAX_UNDO_HISTORY: nat := 10000

  /** What the chain records of its progress; undone together with the blocks. */
  datatype Progress = Progress(head: nat, last: nat, confirmed: map<Witness, nat>)

  function Confirmed(p: Progress, w: Witness): nat {
    if w in p.confirmed then p.confirmed[w] else 0
  }

  function Confirmations(p: Progress, active: seq<Witness>): (xs: seq<nat>)
    ensures |xs| == |active|
  {
    seq(|active|, i requires 0 <= i < |active| => Confirmed(p, active[i]))
  }

  function Offset(n: nat): (k: nat)
    ensures n > 0 ==> k < n
    ensures (n - k) * HUNDRED_PERCENT >= THRESHOLD * n
  {
    (HUNDRED_PERCENT - THRESHOLD) * n / HUNDRED_PERCENT
  }

  /** The raise, if it is one. */
  ghost function Raised(p: Progress, active: seq<Witness>): Progress
    requires active != []
  {
    var block := Nth(Confirmations(p, active), Offset(|active|));
    if block > p.last then p.(last := block) else p
  }

  /** A block becomes irreversible exactly when at least seventy percent of the active witnesses have
      confirmed it or a later one; once it is, it stays so. */
  lemma RaisedIff(p: Progress, active: seq<Witness>, block: nat)
    requires active != []
    ensures Raised(p, active).last >= block
       <==> p.last >= block || AtLeast(Confirmations(p, active), block) >= |active| - Offset(|active|)
  {
    LargestReached(Confirmations(p, active), Offset(|active|), block);
  }

  /** So many numbers reach the bound. */
  lemma EnoughIff(n: nat, reached: nat)
    requires reached <= n && n > 0
    ensures reached >= n - Offset(n) <==> reached * HUNDRED_PERCENT >= THRESHOLD * n
  {
    var rest := (HUNDRED_PERCENT - THRESHOLD) * n;
    FloorIs(rest, HUNDRED_PERCENT);
    FloorIff(rest, HUNDRED_PERCENT, n - reached);
  }

  /** What the active witnesses have confirmed when the signer has confirmed the next block. */
  predicate AfterSigning(p: Progress, signer: Witness, active: seq<Witness>, xs: seq<nat>) {
    && |xs| == |active|
    && forall i :: 0 <= i < |active| ==>
         xs[i] == if active[i] == signer then p.head + 1 else if active[i] in p.confirmed then p.confirmed[active[i]] else 0
  }

  // ----- blocks ----------------------------------------------------------------------------------

  /** The stack of undo states, oldest first; each stands for the progress it leads back to. */
  datatype Chain = Chain(now: Progress, undo: seq<Progress>, maxSize: nat)

  /** The next block's own progress. */
  ghost function Next(p: Progress, signer: Witness, active: seq<Witness>): Progress
    requires active != []
  {
    Raised(p.(head := p.head + 1, confirmed := p.confirmed[signer := p.head + 1]), active)
  }

  /** The undo depth that a block asks for. */
  function DepthFor(p: Progress): nat {
    if p.head + 2 >= p.last then p.head + 2 - p.last else 0
  }

  datatype Event = Push(signer: Witness, active: seq<Witness>, valid: bool) | Pop

  /** A block that is refused, for too much history or in itself, leaves the stack trimmed; taking back its
      session opens a state if there is none. */
  ghost function Step(c: Chain, e: Event): Chain
    requires e.Push? ==> e.active != []
  {
    match e
    case Push(signer, active, valid) =>
      var kept := Trim(c.undo, c.maxSize);
      if c.now.head + 1 >= c.now.last + MAX_UNDO_HISTORY then c.(undo := Opened(kept, c.now))
      else if valid then Chain(Next(c.now, signer, active), kept + [c.now], DepthFor(c.now))
      else Chain(c.now, Opened(kept, c.now), DepthFor(c.now))
    case Pop => if c.undo == [] then c else Chain(c.undo[|c.undo| - 1], c.undo[..|c.undo| - 1], c.maxSize)
  }

  /** A block that is good and not too far from the last irreversible one becomes the head and can be undone, as deep as
      it asks for. A block is irreversible after it exactly if it was before, or if at least seventy percent of the
      active witnesses have confirmed it or a later one. */
  lemma PushDoes(c: Chain, signer: Witness, active: seq<Witness>, valid: bool, xs: seq<nat>, block: nat)
    requires active != [] && AfterSigning(c.now, signer, active, xs) && c.now.last <= c.now.head
    ensures var c' := Step(c, Push(signer, active, valid));
      if c.now.head + 1 >= c.now.last + MAX_UNDO_HISTORY then c'.now == c.now && c'.maxSize == c.maxSize
      else
        && c'.maxSize + c.now.last == c.now.head + 2
        && (if !valid then c'.now == c.now
            else
              && c'.now.head == c.now.head + 1 && c'.undo == Trim(c.undo, c.maxSize) + [c.now]
              && c'.now.confirmed == c.now.confirmed[signer := c.now.head + 1]
              && (c'.now.last >= block
                  <==> c.now.last >= block || AtLeast(xs, block) * HUNDRED_PERCENT >= THRESHOLD * |active|))
  {
    var p := c.now.(head := c.now.head + 1, confirmed := c.now.confirmed[signer := c.now.head + 1]);
    assert xs == Confirmations(p, active);
    RaisedIff(p, active, block);
    EnoughIff(|active|, AtLeast(xs, block));
  }

  /** Nobody has confirmed a block that is not there. */
  predicate InReach(p: Progress) {
    p.last <= p.head && forall w :: w in p.confirmed ==> p.confirmed[w] <= p.head
  }

  /** The stack leads back block by block at least as far as block most, which has been irreversible. */
  predicate Reaches(c: Chain, most: nat) {
    && InReach(c.now) && c.now.last <= most
    && (forall i :: 0 <= i < |c.undo| ==> InReach(c.undo[i]) && c.undo[i].last <= most)
    && LeadsBack(c.undo, c.now.head, most)
    && |c.undo| + most >= c.now.head
    && c.maxSize + most >= c.now.head + 1 && c.maxSize > 0
  }

  /** Each of the newest states is one block before the one above it, down to block most; the others are not
      above that. */
  predicate LeadsBack(undo: seq<Progress>, head: nat, most: nat) {
    forall i :: 0 <= i < |undo| ==>
      if |undo| - i + most <= head then undo[i].head + |undo| - i == head else undo[i].head <= most
  }

  lemma NextInReach(p: Progress, signer: Witness, active: seq<Witness>)
    requires InReach(p) && active != []
    ensures var p' := Next(p, signer, active); InReach(p') && p'.head == p.head + 1 && p'.last >= p.last
  {
    var p1 := p.(head := p.head + 1, confirmed := p.confirmed[signer := p.head + 1]);
    var xs := Confirmations(p1, active);
    var v := Nth(xs, Offset(|active|));
    var i :| 0 <= i < |xs| && xs[i] == v;
    assert v == Confirmed(p1, active[i]) <= p1.head;
  }

  /** States dropped from the bottom do not matter, and nor does one opened there. */
  lemma TrimReaches(c: Chain, most: nat)
    requires Reaches(c, most)
    ensures Reaches(c.(undo := Trim(c.undo, c.maxSize)), most)
    ensures Reaches(c.(undo := Opened(Trim(c.undo, c.maxSize), c.now)), most)
  {
    var kept := Trim(c.undo, c.maxSize);
    forall i | 0 <= i < |kept| ensures kept[i] == c.undo[|c.undo| - |kept| + i] {}
  }

  lemma StepReaches(c: Chain, e: Event, most: nat)
    requires Reaches(c, most) && (e.Push? ==> e.active != [])
    ensures Reaches(Step(c, e), Max(most, Step(c, e).now.last))
  {
    match e
    case Push(signer, active, valid) =>
      TrimReaches(c, most);
      NextInReach(c.now, signer, active);
      PushReaches(c, Trim(c.undo, c.maxSize), Next(c.now, signer, active), most);
      ResizeReaches(c.(undo := Opened(Trim(c.undo, c.maxSize), c.now)), most);
    case Pop =>
      if c.undo != [] { PopReaches(c, most); }
  }

  lemma PushReaches(c: Chain, kept: seq<Progress>, p: Progress, most: nat)
    requires Reaches(c.(undo := kept), most) && InReach(p) && p.head == c.now.head + 1
    ensures Reaches(Chain(p, kept + [c.now], DepthFor(c.now)), Max(most, p.last))
  {}

  lemma ResizeReaches(c: Chain, most: nat)
    requires Reaches(c, most)
    ensures Reaches(c.(maxSize := DepthFor(c.now)), most)
  {}

  lemma PopReaches(c: Chain, most: nat)
    requires Reaches(c, most) && c.undo != []
    ensures var p := c.undo[|c.undo| - 1]; Reaches(Chain(p, c.undo[..|c.undo| - 1], c.maxSize), most) && p.last <= most
  {}

  predicate Runnable(es: seq<Event>) {
    forall e :: e in es && e.Push? ==> e.active != []
  }

  ghost function Run(c: Chain, es: seq<Event>): Chain
    requires Runnable(es)
    decreases |es|
  {
    if es == [] then c else Run(Step(c, es[0]), es[1..])
  }

  /** The highest block that has ever been irreversible on the way. */
  ghost function Highest(c: Chain, es: seq<Event>, most: nat): nat
    requires Runnable(es)
    decreases |es|
  {
    if es == [] then most else Highest(Step(c, es[0]), es[1..], Max(most, Step(c, es[0]).now.last))
  }

  /** However blocks are pushed, refused and popped, the trimmed stack leads back to every block above the
      highest that has been irreversible. */
  lemma {:induction false} RunReaches(c: Chain, es: seq<Event>, most: nat)
    requires Reaches(c, most) && Runnable(es)
    ensures Reaches(Run(c, es), Highest(c, es, most))
    decreases |es|
  {
    if es != [] {
      StepReaches(c, es[0], most);
      RunReaches(Step(c, es[0]), es[1..], Max(most, Step(c, es[0]).now.last));
    }
  }

  /** Pops n blocks. */
  ghost function PopMany(c: Chain, n: nat): Chain
    decreases n
  {
    if n == 0 then c else PopMany(Step(c, Pop), n - 1)
  }

  /** So popping down to it succeeds. */
  lemma {:induction false} PopsDown(c: Chain, most: nat, n: nat)
    requires Reaches(c, most) && n + most <= c.now.head
    ensures PopMany(c, n).now.head == c.now.head - n
    decreases n
  {
    if n > 0 {
      StepReaches(c, Pop, most);
      assert Reaches(Step(c, Pop), most);
      PopsDown(Step(c, Pop), most, n - 1);
    }
  }

  predicate OnlyPushes(es: seq<Event>) {
    forall e :: e in es ==> e.Push?
  }

  /** While blocks are only pushed, the last irreversible block never goes back and never passes the head. */
  lemma {:induction false} NeverDecreases(c: Chain, es: seq<Event>)
    requires Reaches(c, c.now.last) && Runnable(es) && OnlyPushes(es)
    ensures var c' := Run(c, es);
      c.now.last <= c'.now.last <= c'.now.head && Highest(c, es, c.now.last) == c'.now.last
    decreases |es|
  {
    if es != [] {
      StepReaches(c, es[0], c.now.last);
      NextInReach(c.now, es[0].signer, es[0].active);
      NeverDecreases(Step(c, es[0]), es[1..]);
    }
  }

  /** And the stack can always be popped down to exactly it. */
  lemma CanRewind(c: Chain, es: seq<Event>)
    requires Reaches(c, c.now.last) && Runnable(es) && OnlyPushes(es)
    ensures var c' := Run(c, es);
      c'.now.last <= c'.now.head && PopMany(c', c'.now.head - c'.now.last).now.head == c'.now.last
  {
    NeverDecreases(c, es);
    RunReaches(c, es, c.now.last);
    RewindsTo(Run(c, es));
  }

  lemma RewindsTo(c: Chain)
    requires Reaches(c, c.now.last)
    ensures PopMany(c, c.now.head - c.now.last).now.head == c.now.last
  {
    PopsDown(c, c.now.last, c.now.head - c.now.last);
  }

  /** A new chain, with the limit the undo database starts with. */
  lemma GenesisReaches()
    ensures Reaches(Chain(Progress(0, 0, map[]), [], 256), 0)
  {}

  // ----- in place ----------------------------------------------------------------------------------

  class Tracker {
    var now: Progress
    var undo: seq<Progress>
    var maxSize: nat

    function State(): Chain
      reads this
    {
      Chain(now, undo, maxSize)
    }

    constructor ()
      ensures Reaches(State(), 0)
    {
      now, undo, maxSize := Progress(0, 0, map[]), [], 256;
    }

    /** Gathers what the active witnesses have confirmed, and raises the last irreversible block if that is enough. */
    method UpdateLastIrreversible(active: seq<Witness>)
      requires active != []
      modifies this`now
      ensures now == Raised(old(now), active)
    {
      var confirmed := [];
      for i := 0 to |active|
        invariant confirmed == Confirmations(now, active)[..i]
      {
        confirmed := confirmed + [Confirmed(now, active[i])];
      }
      assert confirmed == Confirmations(now, active);
      var block := NthElement(confirmed, Offset(|active|));
      if block > now.last { now := now.(last := block); }
    }

    method DropOldest()
      modifies this`undo
      ensures undo == Trim(old(undo), maxSize)
    {
      while |undo| > maxSize
        invariant Trim(undo, maxSize) == Trim(old(undo), maxSize)
      {
        undo := undo[1..];
      }
    }

    /** What the block did is taken back, and its state with it. */
    method UndoSession()
      modifies this`undo
      ensures undo == Opened(old(undo), now)
    {
      if undo == [] { undo := [now]; }
    }

    /** Opens a session, applies the block in it, and commits it if the block is good. */
    method PushBlock(signer: Witness, active: seq<Witness>, valid: bool) returns (ok: bool)
      requires active != [] && now.last <= now.head
      modifies this
      ensures State() == Step(old(State()), Push(signer, active, valid))
      ensures ok <==> valid && old(now.head) + 1 < old(now.last) + MAX_UNDO_HISTORY
    {
      DropOldest();
      var before := now;
      if now.head + 1 >= now.last + MAX_UNDO_HISTORY {
        UndoSession();
        return false;
      }
      maxSize := now.head + 1 - now.last + 1;
      if !valid {
        UndoSession();
        return false;
      }
      now := now.(head := now.head + 1, confirmed := now.confirmed[signer := now.head + 1]);
      UpdateLastIrreversible(active);
      undo := undo + [before];
      ok := true;
    }

    method PopBlock()
      modifies this
      ensures State() == Step(old(State()), Pop)
    {
      if undo != [] {
        now, undo := undo[|undo| - 1], undo[..|undo| - 1];
      }
    }
  }
}
