/** Moving the chain from one branch of the block tree to another, and back again when a
    block of the new branch turns out to be invalid. */
module ForkSwitch {
  import opened Wrappers
  import opened ForkDatabase
  import opened Stacks

  /** What applying a block to a state comes to. `room` is the undo depth the block asks for
      on its way, which a rejected block may or may not have got to. */
  datatype Verdict<S> = Applied(state: S, room: nat) | Rejected(asked: Option<nat>)

  /** The rules of the chain: a deterministic function of state and block. */
  datatype Rules<!S, !T> = Rules(apply: (S, Block<T>) -> Verdict<S>, head: S -> BlockId)

  /** A block applies only on top of its parent and becomes the head; the undo depth asked for,
      head number minus irreversible number plus 1, is never 0. */
  ghost predicate Lawful<S(!new), T(!new)>(r: Rules<S, T>) {
    forall s, b ::
      match r.apply(s, b)
      case Applied(s', room) => r.head(s) == b.previous && r.head(s') == b.Id() && room > 0
      case Rejected(asked) => asked.Some? ==> asked.value > 0
  }

  /** The object state, the states undo can go back to, how many it may keep, and the block tree. */
  datatype Node<S, T> = Node(state: S, history: seq<S>, room: nat, forks: Forks<T>)

  // ----- applying ------------------------------------------------------------------

  function Resized<S, T>(n: Node<S, T>, room: nat): Node<S, T> {
    n.(room := room, forks := WithMaxSize(n.forks, room))
  }

  /** One session around one block: committed when the block applies, undone when it does not. */
  function Try<S, T>(r: Rules<S, T>, n: Node<S, T>, b: Block<T>): (Node<S, T>, bool) {
    match r.apply(n.state, b)
    case Applied(s, room) =>
      (Resized(n, room).(state := s, history := Trim(n.history, n.room) + [n.state]), true)
    case Rejected(asked) =>
      var n' := n.(history := Opened(Trim(n.history, n.room), n.state));
      (if asked.Some? then Resized(n', asked.value) else n', false)
  }

  /** Applies a branch, given tip first, from its last block up; returns the blocks it did not get past. */
  function Climb<S, T>(r: Rules<S, T>, n: Node<S, T>, br: seq<Block<T>>): (Node<S, T>, seq<Block<T>>)
    decreases |br|
  {
    if br == [] then (n, [])
    else
      var (n', ok) := Try(r, n, Last(br));
      if ok then Climb(r, n', Front(br)) else (n', br)
  }

  /** The state a branch leads to, or None when one of its blocks is invalid. */
  function Fold<S, T>(r: Rules<S, T>, s: S, br: seq<Block<T>>): Option<S>
    decreases |br|
  {
    if br == [] then Some(s)
    else
      match r.apply(s, Last(br))
      case Applied(s', _) => Fold(r, s', Front(br))
      case Rejected(_) => None
  }

  // ----- popping ---------------------------------------------------------------------

  /** Blocks of the two branches stay alive while the switch holds on to them. */
  function Held<T>(br: seq<Block<T>>): Index<T> {
    if br == [] then map[] else Held(br[1..])[br[0].Id() := br[0]]
  }

  function Lookup<T>(index: Index<T>, held: Index<T>, id: BlockId): Option<Block<T>> {
    if id in index then Some(index[id]) else if id in held then Some(held[id]) else None
  }

  /** The block k steps below b, if all the steps can be made. */
  function Walk<T>(index: Index<T>, held: Index<T>, b: Block<T>, k: nat): Option<Block<T>>
    decreases k
  {
    if k == 0 then Some(b)
    else
      match Lookup(index, held, b.previous)
      case None => None
      case Some(p) => Walk(index, held, p, k - 1)
  }

  /** The tree's head steps down first; without a parent there, or without an undo state, it throws. */
  function Pop<S, T>(n: Node<S, T>, held: Index<T>): (Node<S, T>, bool) {
    if n.forks.head.None? then (n, false)
    else
      match Lookup(n.forks.index, held, n.forks.head.value.previous)
      case None => (n, false)
      case Some(p) =>
        var n' := n.(forks := n.forks.(head := Some(p)));
        if n.history == [] then (n', false)
        else (n'.(state := Last(n.history), history := Front(n.history)), true)
  }

  function PopDown<S, T>(r: Rules<S, T>, n: Node<S, T>, held: Index<T>, target: BlockId): (Node<S, T>, bool)
    decreases |n.history|
  {
    if r.head(n.state) == target then (n, true)
    else
      var (n', ok) := Pop(n, held);
      if ok then PopDown(r, n', held, target) else (n', false)
  }

  // ----- the switch --------------------------------------------------------------------

  datatype Outcome<S, T> =
    | Switched(node: Node<S, T>)
    | Restored(node: Node<S, T>)
    | Broken(node: Node<S, T>)

  function Ids<T>(br: seq<Block<T>>): set<BlockId> {
    set i | 0 <= i < |br| :: br[i].Id()
  }

  /** Back to the old branch: forget the blocks that were not reached, and pop what was applied. */
  function Abandon<S, T>(n: Node<S, T>, left: seq<Block<T>>, tip: Block<T>): Node<S, T> {
    n.(forks := n.forks.(index := n.forks.index - Ids(left), head := Some(tip)))
  }

  function SwitchTo<S, T>(r: Rules<S, T>, n: Node<S, T>, first: seq<Block<T>>, second: seq<Block<T>>): Outcome<S, T>
    requires first != [] && second != []
  {
    var target := Last(second).previous;
    var held := Held(first + second);
    var (n1, ok1) := PopDown(r, n, held, target);
    if !ok1 then Broken(n1)
    else
      var (n2, left) := Climb(r, n1, first);
      if left == [] then Switched(n2)
      else
        var (n3, ok3) := PopDown(r, Abandon(n2, left, second[0]), held, target);
        if !ok3 then Broken(n3)
        else
          var (n4, left4) := Climb(r, n3, second);
          if left4 == [] then Restored(n4) else Broken(n4)
  }

  // ----- what undo can go back to ---------------------------------------------------------

  /** As far as they go, the newest undo states are those before the blocks of br, tip first. */
  ghost predicate Backed<S, T>(r: Rules<S, T>, n: Node<S, T>, br: seq<Block<T>>) {
    forall j :: 0 <= j < |br| && j < |n.history| ==> StepOf(r, n, br[j], j)
  }

  /** Block b leads from the j-th newest undo state to the one after it. */
  ghost predicate StepOf<S, T>(r: Rules<S, T>, n: Node<S, T>, b: Block<T>, j: nat)
    requires j < |n.history|
  {
    var v := r.apply(n.history[|n.history| - 1 - j], b);
    v.Applied? && v.state == (if j == 0 then n.state else n.history[|n.history| - j])
  }

  ghost predicate Linked<T>(br: seq<Block<T>>) {
    forall i, k :: 0 <= i < k < |br| && k == i + 1 ==> br[i].previous == br[k].Id()
  }

  lemma {:induction false} LinkedNumbers<T>(br: seq<Block<T>>, k: nat)
    requires Linked(br) && k < |br|
    ensures br[k].Num() == br[0].Num() - k
  {
    if k > 0 { LinkedNumbers(br, k - 1); }
  }

  lemma {:induction false} WalkBranch<T>(index: Index<T>, held: Index<T>, br: seq<Block<T>>, k: nat)
    requires Linked(br) && k < |br|
    requires forall i :: 0 <= i < |br| ==> Lookup(index, held, br[i].Id()) == Some(br[i])
    ensures Walk(index, held, br[0], k) == Some(br[k])
    decreases k
  {
    if k > 0 {
      var rest := br[1..];
      assert rest[0] == br[1] && br[0].previous == br[1].Id();
      WalkBranch(index, held, rest, k - 1);
    }
  }

  lemma {:induction false} HeldBlocks<T>(index: Index<T>, br: seq<Block<T>>)
    requires forall b :: b in br ==> b.Id() in index && index[b.Id()] == b
    ensures forall b :: b in br ==> b.Id() in Held(br) && Held(br)[b.Id()] == b
    ensures forall id :: id in Held(br) ==> id in index && Held(br)[id] == index[id]
    decreases |br|
  {
    if br != [] {
      assert forall b :: b in br[1..] ==> b in br;
      HeldBlocks(index, br[1..]);
    }
  }

  /** Popping a branch that is backed, as far as it is: it ends below the branch exactly when there
      are undo states for all of it and the tree's head can step down as often. */
  lemma {:induction false} PopDownExact<S(!new), T(!new)>(r: Rules<S, T>, n: Node<S, T>, held: Index<T>, br: seq<Block<T>>)
    requires Lawful(r) && br != [] && Linked(br) && n.forks.head.Some?
    requires r.head(n.state) == br[0].Id() && Backed(r, n, br)
    ensures var (n', ok) := PopDown(r, n, held, Last(br).previous);
      var end := Walk(n.forks.index, held, n.forks.head.value, |br|);
      && (ok <==> |br| <= |n.history| && end.Some?)
      && (ok ==> n' == n.(state := n.history[|n.history| - |br|], history := n.history[..|n.history| - |br|],
                          forks := n.forks.(head := end)))
      && (!ok ==> exists b :: b in br && r.head(n'.state) == b.Id())
    decreases |br|
  {
    LinkedNumbers(br, |br| - 1);
    assert r.head(n.state) != Last(br).previous;
    if Pop(n, held).1 {
      PopOnce(r, n, held, br);
      if |br| > 1 {
        assert Last(br[1..]) == Last(br);
        PopDownExact(r, Pop(n, held).0, held, br[1..]);
      }
    }
  }

  /** One block taken off leaves the rest of the branch. */
  lemma PopOnce<S(!new), T(!new)>(r: Rules<S, T>, n: Node<S, T>, held: Index<T>, br: seq<Block<T>>)
    requires Lawful(r) && br != [] && Linked(br) && Backed(r, n, br) && Pop(n, held).1
    ensures var n' := Pop(n, held).0;
      && r.head(n'.state) == br[0].previous && n'.forks.head.Some?
      && Linked(br[1..]) && Backed(r, n', br[1..])
      && (|br| > 1 ==> r.head(n'.state) == br[1].Id())
  {
    var n' := Pop(n, held).0;
    assert StepOf(r, n, br[0], 0);
    forall j | 0 <= j < |br| - 1 && j < |n'.history| ensures StepOf(r, n', br[1..][j], j) {
      assert StepOf(r, n, br[j + 1], j + 1);
    }
  }

  // ----- climbing --------------------------------------------------------------------------

  lemma TryBacked<S(!new), T(!new)>(r: Rules<S, T>, n: Node<S, T>, b: Block<T>, done: seq<Block<T>>)
    requires Lawful(r) && n.room > 0 && Backed(r, n, done) && (done != [] ==> n.history != [])
    ensures var (n', ok) := Try(r, n, b);
      && Backed(r, n', if ok then [b] + done else done)
      && n'.room > 0 && n'.history != []
      && (ok ==> r.head(n'.state) == b.Id() && r.head(n.state) == b.previous)
      && (!ok ==> n'.state == n.state)
      && n'.forks.head == n.forks.head
  {
    if Try(r, n, b).1 { TryOneMore(r, n, b, done); } else { TryNoMore(r, n, b, done); }
  }

  lemma TryOneMore<S(!new), T(!new)>(r: Rules<S, T>, n: Node<S, T>, b: Block<T>, done: seq<Block<T>>)
    requires Backed(r, n, done) && Try(r, n, b).1
    ensures Backed(r, Try(r, n, b).0, [b] + done)
  {
    var n' := Try(r, n, b).0;
    forall j | 0 <= j < |[b] + done| && j < |n'.history| ensures StepOf(r, n', ([b] + done)[j], j) {
      if j > 0 { assert StepOf(r, n, done[j - 1], j - 1); }
    }
  }

  lemma TryNoMore<S(!new), T(!new)>(r: Rules<S, T>, n: Node<S, T>, b: Block<T>, done: seq<Block<T>>)
    requires n.room > 0 && Backed(r, n, done) && (done != [] ==> n.history != []) && !Try(r, n, b).1
    ensures Backed(r, Try(r, n, b).0, done)
  {
    var n' := Try(r, n, b).0;
    forall j | 0 <= j < |done| && j < |n'.history| ensures StepOf(r, n', done[j], j) {
      assert StepOf(r, n, done[j], j);
    }
  }

  /** Climbing applies the branch as far as it is valid. */
  lemma {:induction false} ClimbExact<S(!new), T(!new)>(r: Rules<S, T>, n: Node<S, T>, br: seq<Block<T>>)
    requires Lawful(r)
    ensures var (n', left) := Climb(r, n, br);
      && left <= br
      && n'.forks.head == n.forks.head
      && (|left| < |br| ==> r.head(n'.state) == br[|left|].Id())
      && (left == br ==> n'.state == n.state)
      && (left == [] <==> Fold(r, n.state, br).Some?)
      && (left == [] ==> Fold(r, n.state, br) == Some(n'.state))
    decreases |br|
  {
    if br != [] {
      var (n1, ok) := Try(r, n, Last(br));
      if ok {
        ClimbExact(r, n1, Front(br));
      }
    }
  }

  lemma ShiftOne<X>(br: seq<X>, m: nat, done: seq<X>)
    requires m < |br|
    ensures br[m..] + done == Front(br)[m..] + ([Last(br)] + done)
  {}

  /** Its undo states are those before the blocks it applied, above those before the blocks in `done`. */
  lemma {:induction false} ClimbBacked<S(!new), T(!new)>(r: Rules<S, T>, n: Node<S, T>, br: seq<Block<T>>, done: seq<Block<T>>)
    requires Lawful(r) && n.room > 0 && Backed(r, n, done) && (done != [] ==> n.history != [])
    ensures |Climb(r, n, br).1| <= |br|
    ensures Backed(r, Climb(r, n, br).0, br[|Climb(r, n, br).1|..] + done)
    decreases |br|
  {
    if br == [] {
      assert br[0..] + done == done;
    } else {
      var b := Last(br);
      var (n1, ok) := Try(r, n, b);
      TryBacked(r, n, b, done);
      if ok {
        ClimbBacked(r, n1, Front(br), [b] + done);
        ShiftOne(br, |Climb(r, n1, Front(br)).1|, done);
      } else {
        assert br[|br|..] + done == done;
      }
    }
  }

  lemma {:induction false} ClimbGrows<S(!new), T(!new)>(r: Rules<S, T>, n: Node<S, T>, br: seq<Block<T>>)
    requires n.history != []
    ensures |Climb(r, n, br).1| <= |br|
    ensures |Climb(r, n, br).0.history| <= |n.history| + |br| - |Climb(r, n, br).1|
    decreases |br|
  {
    if br != [] {
      var (n1, ok) := Try(r, n, Last(br));
      if ok { ClimbGrows(r, n1, Front(br)); }
    }
  }

  /** The entry d below the top. */
  function Below<X>(s: seq<X>, d: nat): X
    requires d < |s|
  {
    s[|s| - 1 - d]
  }

  lemma TrimBelow<X>(s: seq<X>, size: nat, d: nat)
    requires d < |Trim(s, size)|
    ensures d < |s| && Below(Trim(s, size), d) == Below(s, d)
  {}

  /** A block that applies puts one state on top; one that does not puts none. */
  lemma TryKeeps<S(!new), T(!new)>(r: Rules<S, T>, n: Node<S, T>, b: Block<T>, d: nat)
    requires Lawful(r) && n.room > 0 && d < |n.history|
    ensures var (n1, ok) := Try(r, n, b);
      && n1.history != [] && (ok ==> n1.room > 0)
      && (ok && d + 1 < |n1.history| ==> Below(n1.history, d + 1) == Below(n.history, d))
      && (!ok && d < |n1.history| ==> Below(n1.history, d) == Below(n.history, d))
  {
    TrimPush(n.history, n.room, n.state, d);
  }

  lemma TrimPush<X>(s: seq<X>, size: nat, x: X, d: nat)
    requires size > 0 && d < |s|
    ensures var kept := Trim(s, size);
      && Opened(kept, x) == kept != []
      && (d + 1 < |kept + [x]| ==> Below(kept + [x], d + 1) == Below(s, d))
      && (d < |kept| ==> Below(kept, d) == Below(s, d))
  {
    if d < |Trim(s, size)| { TrimBelow(s, size, d); }
  }

  /** The k blocks a climb got past, and the undo states after it. */
  function Past<S, T>(r: Rules<S, T>, n: Node<S, T>, br: seq<Block<T>>): (k: int) {
    |br| - |Climb(r, n, br).1|
  }

  /** One block at a time. */
  lemma ClimbOnce<S(!new), T(!new)>(r: Rules<S, T>, n: Node<S, T>, br: seq<Block<T>>)
    requires br != []
    ensures var (n1, ok) := Try(r, n, Last(br));
      && (ok ==> Climb(r, n, br) == Climb(r, n1, Front(br)) && Past(r, n, br) == Past(r, n1, Front(br)) + 1)
      && (!ok ==> Climb(r, n, br) == (n1, br) && Past(r, n, br) == 0)
  {}

  /** An undo state d below the top is d below the k states a climb has added, or has been dropped. */
  ghost predicate Sinks<X>(before: seq<X>, after: seq<X>, k: int, d: nat)
    requires d < |before|
  {
    k >= 0 && (k + d < |after| ==> Below(after, k + d) == Below(before, d))
  }

  lemma SinksTwice<X>(h0: seq<X>, h1: seq<X>, h2: seq<X>, k: int, d: nat)
    requires d < |h0| && d + 1 < |h1| && Sinks(h0, h1, 1, d) && Sinks(h1, h2, k, d + 1)
    ensures Sinks(h0, h2, k + 1, d)
  {}

  lemma SunkAway<X>(before: seq<X>, after: seq<X>, k: int, d: nat)
    requires d < |before| && k >= 0 && |after| <= k + d
    ensures Sinks(before, after, k, d)
  {}

  lemma TrySinks<S(!new), T(!new)>(r: Rules<S, T>, n: Node<S, T>, b: Block<T>, d: nat)
    requires Lawful(r) && n.room > 0 && d < |n.history|
    ensures var (n1, ok) := Try(r, n, b);
      Sinks(n.history, n1.history, if ok then 1 else 0, d) && n1.history != [] && (ok ==> n1.room > 0)
  {
    TryKeeps(r, n, b, d);
  }

  lemma PastGrows<S(!new), T(!new)>(r: Rules<S, T>, n: Node<S, T>, br: seq<Block<T>>)
    requires n.history != []
    ensures Past(r, n, br) >= 0 && |Climb(r, n, br).0.history| <= |n.history| + Past(r, n, br)
  {
    ClimbGrows(r, n, br);
  }

  lemma {:induction false} ClimbKeeps<S(!new), T(!new)>(r: Rules<S, T>, n: Node<S, T>, br: seq<Block<T>>, d: nat)
    requires Lawful(r) && n.room > 0 && d < |n.history|
    ensures Sinks(n.history, Climb(r, n, br).0.history, Past(r, n, br), d)
    decreases |br|
  {
    if br != [] {
      ClimbOnce(r, n, br);
      TrySinks(r, n, Last(br), d);
      var (n1, ok) := Try(r, n, Last(br));
      if ok {
        PastGrows(r, n1, Front(br));
        var h := Climb(r, n1, Front(br)).0.history;
        if d + 1 < |n1.history| {
          ClimbKeeps(r, n1, Front(br), d + 1);
          SinksTwice(n.history, n1.history, h, Past(r, n1, Front(br)), d);
        } else {
          SunkAway(n.history, h, Past(r, n1, Front(br)) + 1, d);
        }
      }
    }
  }

  /** Below the states of the blocks applied lies the state the climb started from. */
  lemma ClimbBottom<S(!new), T(!new)>(r: Rules<S, T>, n: Node<S, T>, br: seq<Block<T>>)
    requires Lawful(r)
    ensures |Climb(r, n, br).1| <= |br|
    ensures var h := Climb(r, n, br).0.history;
      var k := |br| - |Climb(r, n, br).1|;
      1 <= k <= |h| ==> h[|h| - k] == n.state
  {
    if br != [] {
      ClimbOnce(r, n, br);
      var (n1, ok) := Try(r, n, Last(br));
      if ok {
        ClimbKeeps(r, n1, Front(br), 0);
      }
    }
  }

  /** The state before the k newest blocks. */
  function Before<S, T>(n: Node<S, T>, k: nat): S
    requires k <= |n.history|
  {
    if k == 0 then n.state else n.history[|n.history| - k]
  }

  /** The blocks of a backed branch lead from the undo state below it to the present state. */
  lemma {:induction false} FoldBacked<S(!new), T(!new)>(r: Rules<S, T>, n: Node<S, T>, br: seq<Block<T>>, k: nat)
    requires Backed(r, n, br) && k <= |br| <= |n.history|
    ensures Fold(r, Before(n, k), br[..k]) == Some(n.state)
  {
    if k > 0 {
      FoldBacked(r, n, br, k - 1);
      assert StepOf(r, n, br[k - 1], k - 1);
      assert Front(br[..k]) == br[..k - 1];
    }
  }

  // ----- the whole switch --------------------------------------------------------------------

  /** A switch as _push_block starts one: the tree's head is the tip of a higher branch, the old
      branch is the chain's own, and undo reaches the place where they meet. */
  ghost predicate Switching<S, T>(r: Rules<S, T>, n: Node<S, T>, first: seq<Block<T>>, second: seq<Block<T>>) {
    && first != [] && second != []
    && Meet(first, second)
    && IsBranch(n.forks.index, first[0].Id(), first) && IsBranch(n.forks.index, second[0].Id(), second)
    && n.forks.head == Some(first[0]) && r.head(n.state) == second[0].Id()
    && |first| > |second|
    && Backed(r, n, second) && |second| <= |n.history|
    && n.room > 0
  }

  /** The node when the new branch has been applied as far as it goes. */
  function AtTop<S, T>(r: Rules<S, T>, n: Node<S, T>, first: seq<Block<T>>, second: seq<Block<T>>): (Node<S, T>, seq<Block<T>>)
    requires first != [] && second != []
  {
    Climb(r, PopDown(r, n, Held(first + second), Last(second).previous).0, first)
  }

  /** After k blocks of the new branch, the way back is open: k undo states are left, and the old
      branch's tip still has its k-th parent. */
  predicate WayBack<S, T>(n: Node<S, T>, left: seq<Block<T>>, k: nat, held: Index<T>, tip: Block<T>) {
    k <= |n.history| && Walk(n.forks.index - Ids(left), held, tip, k).Some?
  }

  lemma HeldBranches<T>(index: Index<T>, a: seq<Block<T>>, b: seq<Block<T>>)
    requires a != [] && b != [] && IsBranch(index, a[0].Id(), a) && IsBranch(index, b[0].Id(), b)
    ensures forall i :: 0 <= i < |a| ==> a[i].Id() in Held(a + b) && Held(a + b)[a[i].Id()] == a[i]
    ensures forall i :: 0 <= i < |b| ==> b[i].Id() in Held(a + b) && Held(a + b)[b[i].Id()] == b[i]
    ensures forall id :: id in Held(a + b) ==> id in index && Held(a + b)[id] == index[id]
  {
    HeldBlocks(index, a + b);
    forall i | 0 <= i < |a| ensures a[i] in a + b { assert (a + b)[i] == a[i]; }
    forall i | 0 <= i < |b| ensures b[i] in a + b { assert (a + b)[|a| + i] == b[i]; }
  }

  /** The first part never fails: the chain is back where the branches meet. */
  lemma PopToFork<S(!new), T(!new)>(r: Rules<S, T>, n: Node<S, T>, first: seq<Block<T>>, second: seq<Block<T>>)
    requires Lawful(r) && Switching(r, n, first, second)
    ensures PopDown(r, n, Held(first + second), Last(second).previous)
         == (n.(state := n.history[|n.history| - |second|], history := n.history[..|n.history| - |second|],
                forks := n.forks.(head := Some(first[|second|]))), true)
  {
    var held := Held(first + second);
    HeldBranches(n.forks.index, first, second);
    WalkBranch(n.forks.index, held, first, |second|);
    PopDownExact(r, n, held, second);
  }

  /** The state where the branches meet has the shared parent as its head. */
  lemma HeadAtFork<S(!new), T(!new)>(r: Rules<S, T>, n: Node<S, T>, second: seq<Block<T>>)
    requires Lawful(r) && second != [] && Backed(r, n, second) && |second| <= |n.history|
    ensures r.head(n.history[|n.history| - |second|]) == Last(second).previous
  {
    assert StepOf(r, n, second[|second| - 1], |second| - 1);
  }

  /** Popping the k blocks that were applied: all of them, exactly when the way back is open. */
  lemma PopApplied<S(!new), T(!new)>(r: Rules<S, T>, n: Node<S, T>, left: seq<Block<T>>, done: seq<Block<T>>, held: Index<T>, tip: Block<T>)
    requires Lawful(r) && done != [] && Linked(done) && Backed(r, n, done) && r.head(n.state) == done[0].Id()
    ensures var (n', ok) := PopDown(r, Abandon(n, left, tip), held, Last(done).previous);
      && (ok <==> WayBack(n, left, |done|, held, tip))
      && (ok ==> n'.state == n.history[|n.history| - |done|] && n'.room == n.room
                 && n'.history == n.history[..|n.history| - |done|])
      && (!ok ==> exists b :: b in done && r.head(n'.state) == b.Id())
  {
    var n2 := Abandon(n, left, tip);
    forall j | 0 <= j < |done| && j < |n2.history| ensures StepOf(r, n2, done[j], j) {
      assert StepOf(r, n, done[j], j);
    }
    PopDownExact(r, n2, held, done);
  }

  /** The second part, on failure: back at the meeting point exactly when the way back is open. */
  lemma PopBack<S(!new), T(!new)>(r: Rules<S, T>, n: Node<S, T>, first: seq<Block<T>>, held: Index<T>, tip: Block<T>)
    requires Lawful(r) && n.room > 0 && Linked(first) && first != []
    requires r.head(n.state) == Last(first).previous && Climb(r, n, first).1 != []
    ensures var (n2, left) := Climb(r, n, first);
      var (n3, ok) := PopDown(r, Abandon(n2, left, tip), held, Last(first).previous);
      && |left| <= |first|
      && (ok <==> WayBack(n2, left, |first| - |left|, held, tip))
      && (ok ==> n3.state == n.state)
      && (!ok ==> exists b :: b in first && r.head(n3.state) == b.Id())
  {
    ClimbExact(r, n, first);
    ClimbBacked(r, n, first, []);
    ClimbBottom(r, n, first);
    PopBackFrom(r, n, Climb(r, n, first).0, first, Climb(r, n, first).1, held, tip);
  }

  /** The same from the node that a climb has come to. */
  lemma PopBackFrom<S(!new), T(!new)>(r: Rules<S, T>, n: Node<S, T>, n2: Node<S, T>, first: seq<Block<T>>, left: seq<Block<T>>,
                                      held: Index<T>, tip: Block<T>)
    requires Lawful(r) && Linked(first) && first != [] && left <= first
    requires r.head(n.state) == Last(first).previous && Backed(r, n2, first[|left|..] + [])
    requires left == first ==> n2.state == n.state
    requires |left| < |first| ==> r.head(n2.state) == first[|left|].Id()
    requires var k := |first| - |left|; 1 <= k <= |n2.history| ==> n2.history[|n2.history| - k] == n.state
    ensures var (n3, ok) := PopDown(r, Abandon(n2, left, tip), held, Last(first).previous);
      && (ok <==> WayBack(n2, left, |first| - |left|, held, tip))
      && (ok ==> n3.state == n.state)
      && (!ok ==> exists b :: b in first && r.head(n3.state) == b.Id())
  {
    var done := first[|left|..];
    assert done + [] == done;
    if done != [] {
      PopApplied(r, n2, left, done, held, tip);
      assert forall b :: b in done ==> b in first;
    }
  }

  /** What a switch comes to, n2 being the node when the new branch has been applied as far as it goes.
      - Switched: the state is the new branch applied to the state where the branches meet.
      - Restored: a block of the new branch is invalid, and the state is the one before the push.
      - Broken: a block is invalid, the way back is closed, and the head is on the new branch. */
  ghost predicate Described<S, T>(r: Rules<S, T>, n: Node<S, T>, first: seq<Block<T>>, second: seq<Block<T>>,
                                  n2: Node<S, T>, left: seq<Block<T>>, out: Outcome<S, T>)
    requires first != [] && second != [] && |second| <= |n.history|
  {
    var end := Fold(r, Before(n, |second|), first);
    && (out.Switched? <==> end.Some?)
    && (out.Switched? ==> Some(out.node.state) == end && r.head(out.node.state) == first[0].Id())
    && |left| <= |first|
    && (left == [] <==> end.Some?)
    && (end.None? ==> (out.Restored? <==> WayBack(n2, left, |first| - |left|, Held(first + second), second[0])))
    && (out.Restored? ==> out.node.state == n.state)
    && (out.Broken? ==> exists b :: b in first && r.head(out.node.state) == b.Id())
  }

  lemma SwitchOutcome<S(!new), T(!new)>(r: Rules<S, T>, n: Node<S, T>, first: seq<Block<T>>, second: seq<Block<T>>)
    requires Lawful(r) && Switching(r, n, first, second)
    ensures var (n2, left) := AtTop(r, n, first, second);
      Described(r, n, first, second, n2, left, SwitchTo(r, n, first, second))
  {
    var n1, n2, left, n3, ok := SwitchSteps(r, n, first, second);
    HeadAtFork(r, n, second);
    assert Last(first).previous == Last(second).previous;
    ClimbExact(r, n1, first);
    if left == [] {
      TakenOver(r, n, first, second, n2);
    } else {
      FailedOutcome(r, n, first, second, n1, n2, left, n3, ok);
    }
  }

  lemma FailedOutcome<S(!new), T(!new)>(r: Rules<S, T>, n: Node<S, T>, first: seq<Block<T>>, second: seq<Block<T>>,
                                        n1: Node<S, T>, n2: Node<S, T>, left: seq<Block<T>>, n3: Node<S, T>, ok: bool)
    requires Lawful(r) && Switching(r, n, first, second) && n1.state == Before(n, |second|) && n1.room == n.room
    requires r.head(n1.state) == Last(first).previous && (n2, left) == Climb(r, n1, first) && left != []
    requires Fold(r, Before(n, |second|), first).None?
    requires (n3, ok) == PopDown(r, Abandon(n2, left, second[0]), Held(first + second), Last(first).previous)
    ensures |left| <= |first|
    ensures ok ==> Climb(r, n3, second).1 == [] && Described(r, n, first, second, n2, left, Restored(Climb(r, n3, second).0))
    ensures !ok ==> Described(r, n, first, second, n2, left, Broken(n3))
  {
    WentBack(r, n1, first, Held(first + second), second[0], n2, left, n3, ok);
    if ok {
      Reapplied(r, n, n3, second);
      TakenBack(r, n, first, second, n2, left, Climb(r, n3, second).0);
    } else {
      LeftBetween(r, n, first, second, n2, left, n3);
    }
  }

  lemma WentBack<S(!new), T(!new)>(r: Rules<S, T>, n1: Node<S, T>, first: seq<Block<T>>, held: Index<T>, tip: Block<T>,
                                   n2: Node<S, T>, left: seq<Block<T>>, n3: Node<S, T>, ok: bool)
    requires Lawful(r) && n1.room > 0 && Linked(first) && first != []
    requires r.head(n1.state) == Last(first).previous && (n2, left) == Climb(r, n1, first) && left != []
    requires (n3, ok) == PopDown(r, Abandon(n2, left, tip), held, Last(first).previous)
    ensures |left| <= |first|
    ensures ok <==> WayBack(n2, left, |first| - |left|, held, tip)
    ensures ok ==> n3.state == n1.state
    ensures !ok ==> exists b :: b in first && r.head(n3.state) == b.Id()
  {
    PopBack(r, n1, first, held, tip);
  }

  lemma Reapplied<S(!new), T(!new)>(r: Rules<S, T>, n: Node<S, T>, n3: Node<S, T>, second: seq<Block<T>>)
    requires Lawful(r) && Backed(r, n, second) && |second| <= |n.history| && n3.state == Before(n, |second|)
    ensures Climb(r, n3, second).1 == [] && Climb(r, n3, second).0.state == n.state
  {
    BackUp(r, n, second);
    ReapplySame(r, n, n3, second);
  }

  lemma TakenOver<S(!new), T(!new)>(r: Rules<S, T>, n: Node<S, T>, first: seq<Block<T>>, second: seq<Block<T>>, n2: Node<S, T>)
    requires first != [] && second != [] && |second| <= |n.history|
    requires Fold(r, Before(n, |second|), first) == Some(n2.state) && r.head(n2.state) == first[0].Id()
    ensures Described(r, n, first, second, n2, [], Switched(n2))
  {}

  lemma TakenBack<S(!new), T(!new)>(r: Rules<S, T>, n: Node<S, T>, first: seq<Block<T>>, second: seq<Block<T>>,
                                    n2: Node<S, T>, left: seq<Block<T>>, n4: Node<S, T>)
    requires first != [] && second != [] && |second| <= |n.history| && 0 < |left| <= |first|
    requires Fold(r, Before(n, |second|), first).None? && n4.state == n.state
    requires WayBack(n2, left, |first| - |left|, Held(first + second), second[0])
    ensures Described(r, n, first, second, n2, left, Restored(n4))
  {}

  lemma LeftBetween<S(!new), T(!new)>(r: Rules<S, T>, n: Node<S, T>, first: seq<Block<T>>, second: seq<Block<T>>,
                                      n2: Node<S, T>, left: seq<Block<T>>, n3: Node<S, T>)
    requires first != [] && second != [] && |second| <= |n.history| && 0 < |left| <= |first|
    requires Fold(r, Before(n, |second|), first).None?
    requires !WayBack(n2, left, |first| - |left|, Held(first + second), second[0])
    requires exists b :: b in first && r.head(n3.state) == b.Id()
    ensures Described(r, n, first, second, n2, left, Broken(n3))
  {}

  /** The nodes a switch goes through. */
  lemma SwitchSteps<S(!new), T(!new)>(r: Rules<S, T>, n: Node<S, T>, first: seq<Block<T>>, second: seq<Block<T>>)
    returns (n1: Node<S, T>, n2: Node<S, T>, left: seq<Block<T>>, n3: Node<S, T>, ok: bool)
    requires Lawful(r) && Switching(r, n, first, second)
    ensures n1.state == Before(n, |second|) && n1.room == n.room
    ensures (n2, left) == Climb(r, n1, first) == AtTop(r, n, first, second)
    ensures (n3, ok) == PopDown(r, Abandon(n2, left, second[0]), Held(first + second), Last(second).previous)
    ensures var out := SwitchTo(r, n, first, second);
      && (left == [] ==> out == Switched(n2))
      && (left != [] && !ok ==> out == Broken(n3))
      && (left != [] && ok && Climb(r, n3, second).1 == [] ==> out == Restored(Climb(r, n3, second).0))
  {
    PopToFork(r, n, first, second);
    n1 := PopDown(r, n, Held(first + second), Last(second).previous).0;
    n2, left := Climb(r, n1, first).0, Climb(r, n1, first).1;
    var back := PopDown(r, Abandon(n2, left, second[0]), Held(first + second), Last(second).previous);
    n3, ok := back.0, back.1;
  }

  /** The old branch leads from where the branches meet back to the state before the push. */
  lemma BackUp<S(!new), T(!new)>(r: Rules<S, T>, n: Node<S, T>, second: seq<Block<T>>)
    requires Backed(r, n, second) && |second| <= |n.history|
    ensures Fold(r, Before(n, |second|), second) == Some(n.state)
  {
    FoldBacked(r, n, second, |second|);
    assert second[..|second|] == second;
  }

  lemma ReapplySame<S(!new), T(!new)>(r: Rules<S, T>, n: Node<S, T>, n3: Node<S, T>, second: seq<Block<T>>)
    requires Lawful(r) && |second| <= |n.history| && Fold(r, Before(n, |second|), second) == Some(n.state)
    ensures n3.state == Before(n, |second|) ==> Climb(r, n3, second).1 == [] && Climb(r, n3, second).0.state == n.state
  {
    if n3.state == Before(n, |second|) { ClimbExact(r, n3, second); }
  }

  /** Popping that fails does so after j steps: the next one lacks an undo state or a parent. */
  ghost predicate StopsAfter<S, T>(r: Rules<S, T>, n: Node<S, T>, held: Index<T>, br: seq<Block<T>>, n': Node<S, T>, j: nat)
    requires n.forks.head.Some?
  {
    var tip := n.forks.head.value;
    && j < |br| && j <= |n.history| && Walk(n.forks.index, held, tip, j).Some?
    && !(j + 1 <= |n.history| && Walk(n.forks.index, held, tip, j + 1).Some?)
    && n'.state == Before(n, j) && n'.history == n.history[..|n.history| - j] && r.head(n'.state) == br[j].Id()
  }

  lemma {:induction false} PopDownStops<S(!new), T(!new)>(r: Rules<S, T>, n: Node<S, T>, held: Index<T>, br: seq<Block<T>>)
    returns (j: nat)
    requires Lawful(r) && br != [] && Linked(br) && n.forks.head.Some?
    requires r.head(n.state) == br[0].Id() && Backed(r, n, br)
    requires !PopDown(r, n, held, Last(br).previous).1
    ensures StopsAfter(r, n, held, br, PopDown(r, n, held, Last(br).previous).0, j)
    decreases |br|
  {
    LinkedNumbers(br, |br| - 1);
    assert r.head(n.state) != Last(br).previous;
    if Pop(n, held).1 && |br| > 1 {
      PopOnce(r, n, held, br);
      var n1 := Pop(n, held).0;
      assert Last(br[1..]) == Last(br);
      var i := PopDownStops(r, n1, held, br[1..]);
      j := i + 1;
      OneMoreStop(r, n, n1, held, br, PopDown(r, n, held, Last(br).previous).0, i);
    } else {
      if |br| == 1 && Pop(n, held).1 { PopOnce(r, n, held, br); }
      j := 0;
      OneStep(n.forks.index, held, n.forks.head.value);
    }
  }

  lemma OneStep<T>(index: Index<T>, held: Index<T>, b: Block<T>)
    ensures Walk(index, held, b, 1) == Lookup(index, held, b.previous)
  {}

  lemma OneMoreStop<S(!new), T(!new)>(r: Rules<S, T>, n: Node<S, T>, n1: Node<S, T>, held: Index<T>, br: seq<Block<T>>, n': Node<S, T>, i: nat)
    requires n.forks.head.Some? && Pop(n, held) == (n1, true) && br != [] && StopsAfter(r, n1, held, br[1..], n', i)
    ensures StopsAfter(r, n, held, br, n', i + 1)
  {
    var tip := n.forks.head.value;
    assert Walk(n.forks.index, held, tip, i + 1) == Walk(n.forks.index, held, n1.forks.head.value, i);
    assert Walk(n.forks.index, held, tip, i + 2) == Walk(n.forks.index, held, n1.forks.head.value, i + 1);
  }

  lemma {:induction false} WalkShorter<T>(index: Index<T>, held: Index<T>, b: Block<T>, j: nat, k: nat)
    requires j <= k && Walk(index, held, b, k).Some?
    ensures Walk(index, held, b, j).Some?
    decreases j
  {
    if j > 0 { WalkShorter(index, held, Lookup(index, held, b.previous).value, j - 1, k - 1); }
  }

  /** The new branch is taken or the state is as before, exactly when the new branch is valid or the way back is
      open: back by all the blocks that were applied, or by all but `spared` of them. */
  ghost predicate AtomicIff<S, T>(r: Rules<S, T>, n: Node<S, T>, first: seq<Block<T>>, second: seq<Block<T>>, spared: nat)
    requires first != [] && second != []
  {
    var (n2, left) := AtTop(r, n, first, second);
    var out := SwitchTo(r, n, first, second);
    && (left == [] || |left| + spared <= |first|)
    && (out.Switched? || out.node.state == n.state <==>
        left == [] || WayBack(n2, left, |first| - |left| - spared, Held(first + second), second[0]))
  }

  /** The push is atomic exactly when the new branch is valid or the way back is open: any other switch leaves
      a different head. Where the old head is an ancestor of the new tip, it has only been applied again. */
  lemma SwitchIsAtomicIff<S(!new), T(!new)>(r: Rules<S, T>, n: Node<S, T>, first: seq<Block<T>>, second: seq<Block<T>>)
    requires Lawful(r) && Switching(r, n, first, second)
    ensures AtomicIff(r, n, first, second, if Last(first) == Last(second) then 1 else 0)
  {
    if Last(first) == Last(second) {
      AncestorIff(r, n, first, second);
    } else {
      OtherBranchIff(r, n, first, second);
    }
  }

  /** When neither tip lies on the other branch. */
  lemma OtherBranchIff<S(!new), T(!new)>(r: Rules<S, T>, n: Node<S, T>, first: seq<Block<T>>, second: seq<Block<T>>)
    requires Lawful(r) && Switching(r, n, first, second) && Last(first) != Last(second)
    ensures AtomicIff(r, n, first, second, 0)
  {
    SwitchOutcome(r, n, first, second);
    PopToFork(r, n, first, second);
    ClimbExact(r, PopDown(r, n, Held(first + second), Last(second).previous).0, first);
    var out := SwitchTo(r, n, first, second);
    if out.Broken? {
      var b :| b in first && r.head(out.node.state) == b.Id();
      var i :| 0 <= i < |first| && first[i] == b;
      assert second[0] != b by {
        if i < |first| - 1 || 0 < |second| - 1 { DisjointAbove(first, second, i, 0); }
      }
      assert n.forks.index[b.Id()] == b;
    }
  }

  /** When the old head is an ancestor of the new tip: it is popped and applied again first. */
  lemma AncestorIff<S(!new), T(!new)>(r: Rules<S, T>, n: Node<S, T>, first: seq<Block<T>>, second: seq<Block<T>>)
    requires Lawful(r) && Switching(r, n, first, second) && Last(first) == Last(second)
    ensures AtomicIff(r, n, first, second, 1)
  {
    SwitchOutcome(r, n, first, second);
    AncestorFirst(r, n, first, second);
    if SwitchTo(r, n, first, second).Broken? {
      AncestorBroken(r, n, first, second);
    } else if SwitchTo(r, n, first, second).Restored? {
      var (n2, left) := AtTop(r, n, first, second);
      WayBackShorter(n2, left, |first| - |left|, Held(first + second), second[0]);
    }
  }

  lemma WayBackShorter<S, T>(n: Node<S, T>, left: seq<Block<T>>, k: nat, held: Index<T>, tip: Block<T>)
    requires k > 0 && WayBack(n, left, k, held, tip)
    ensures WayBack(n, left, k - 1, held, tip)
  {
    WalkShorter(n.forks.index - Ids(left), held, tip, k - 1, k);
  }

  lemma AncestorBroken<S(!new), T(!new)>(r: Rules<S, T>, n: Node<S, T>, first: seq<Block<T>>, second: seq<Block<T>>)
    requires Lawful(r) && Switching(r, n, first, second) && Last(first) == Last(second)
    requires var left := AtTop(r, n, first, second).1; left != [] && |left| < |first|
    requires SwitchTo(r, n, first, second).Broken?
    ensures AtomicIff(r, n, first, second, 1)
  {
    AncestorFirst(r, n, first, second);
    var (n2, left) := AtTop(r, n, first, second);
    var j := BrokenAfter(r, n, first, second);
    StoppedIff(r, n, Abandon(n2, left, second[0]), Held(first + second), first[|left|..], SwitchTo(r, n, first, second).node, j);
  }

  /** Popping that fails gets back to the last of the blocks exactly if the way there is open. */
  lemma StoppedIff<S(!new), T(!new)>(r: Rules<S, T>, n: Node<S, T>, n2: Node<S, T>, held: Index<T>, done: seq<Block<T>>, n': Node<S, T>, j: nat)
    requires done != [] && Linked(done) && r.head(n.state) == Last(done).Id() && n2.forks.head.Some?
    requires |done| - 1 <= |n2.history| ==> Before(n2, |done| - 1) == n.state
    requires StopsAfter(r, n2, held, done, n', j)
    ensures var k := |done| - 1;
      n'.state == n.state <==> k <= |n2.history| && Walk(n2.forks.index, held, n2.forks.head.value, k).Some?
  {
    var k := |done| - 1;
    LinkedNumbers(done, j);
    LinkedNumbers(done, k);
    if k <= |n2.history| && Walk(n2.forks.index, held, n2.forks.head.value, k).Some? && j < k {
      WalkShorter(n2.forks.index, held, n2.forks.head.value, j + 1, k);
    }
  }

  /** The old head applies again, to the state that it led to before. */
  lemma AncestorFirst<S(!new), T(!new)>(r: Rules<S, T>, n: Node<S, T>, first: seq<Block<T>>, second: seq<Block<T>>)
    requires Lawful(r) && Switching(r, n, first, second) && Last(first) == Last(second)
    ensures |second| == 1
    ensures var (n2, left) := AtTop(r, n, first, second);
      && (left != [] ==> |left| < |first|)
      && (|left| < |first| && |first| - |left| - 1 <= |n2.history| ==> Before(n2, |first| - |left| - 1) == n.state)
  {
    if |second| > 1 { LastApart(n.forks.index, first, second); }
    PopToFork(r, n, first, second);
    assert StepOf(r, n, second[0], 0);
    AppliedAgain(r, PopDown(r, n, Held(first + second), Last(second).previous).0, first, n.state);
  }

  lemma AppliedAgain<S(!new), T(!new)>(r: Rules<S, T>, n1: Node<S, T>, first: seq<Block<T>>, s: S)
    requires Lawful(r) && first != []
    requires var v := r.apply(n1.state, Last(first)); v.Applied? && v.state == s
    ensures var (n2, left) := Climb(r, n1, first);
      && |left| < |first| && (|first| - |left| - 1 <= |n2.history| ==> Before(n2, |first| - |left| - 1) == s)
  {
    var n := ClimbApplied(r, n1, first);
    ClimbStart(r, n, Front(first), Climb(r, n1, first));
  }

  lemma ClimbApplied<S(!new), T(!new)>(r: Rules<S, T>, n: Node<S, T>, br: seq<Block<T>>) returns (n': Node<S, T>)
    requires br != [] && r.apply(n.state, Last(br)).Applied?
    ensures Climb(r, n, br) == Climb(r, n', Front(br)) && n'.state == r.apply(n.state, Last(br)).state
  {
    n' := Try(r, n, Last(br)).0;
  }

  /** Below the k states a climb has added lies the one it started from. */
  lemma ClimbStart<S(!new), T(!new)>(r: Rules<S, T>, n: Node<S, T>, br: seq<Block<T>>, end: (Node<S, T>, seq<Block<T>>))
    requires Lawful(r) && end == Climb(r, n, br)
    ensures |end.1| <= |br| && (|br| - |end.1| <= |end.0.history| ==> Before(end.0, |br| - |end.1|) == n.state)
  {
    ClimbExact(r, n, br);
    ClimbBottom(r, n, br);
  }

  lemma LastApart<T>(index: Index<T>, first: seq<Block<T>>, second: seq<Block<T>>)
    requires first != [] && second != [] && Meet(first, second) && |first| > 1 && |second| > 1
    requires IsBranch(index, first[0].Id(), first) && IsBranch(index, second[0].Id(), second)
    ensures Last(first) != Last(second)
  {
    LastDiffer(index, first[0].Id(), second[0].Id(), first, second);
  }

  /** Where a recovery that fails gets stuck, in blocks taken off again. */
  lemma BrokenAfter<S(!new), T(!new)>(r: Rules<S, T>, n: Node<S, T>, first: seq<Block<T>>, second: seq<Block<T>>) returns (j: nat)
    requires Lawful(r) && Switching(r, n, first, second) && SwitchTo(r, n, first, second).Broken?
    requires var left := AtTop(r, n, first, second).1; left != [] && |left| < |first|
    ensures var (n2, left) := AtTop(r, n, first, second);
      |left| < |first| && StopsAfter(r, Abandon(n2, left, second[0]), Held(first + second), first[|left|..], SwitchTo(r, n, first, second).node, j)
  {
    SwitchOutcome(r, n, first, second);
    var n1, n2, left, n3, ok := SwitchSteps(r, n, first, second);
    ClimbExact(r, n1, first);
    ClimbBacked(r, n1, first, []);
    var done := first[|left|..];
    assert done + [] == done;
    SameBacking(r, n2, Abandon(n2, left, second[0]), done);
    HeadAtFork(r, n, second);
    BackUp(r, n, second);
    ReapplySame(r, n, n3, second);
    PopBack(r, n1, first, Held(first + second), second[0]);
    assert Last(done) == Last(first);
    j := PopDownStops(r, Abandon(n2, left, second[0]), Held(first + second), done);
  }

  // ----- what undo can go back to afterwards ------------------------------------------------------

  lemma PopBacked<S(!new), T(!new)>(r: Rules<S, T>, n: Node<S, T>, n': Node<S, T>, done: seq<Block<T>>, rest: seq<Block<T>>)
    requires Backed(r, n, done + rest) && |done| <= |n.history|
    requires n'.state == Before(n, |done|) && n'.history == n.history[..|n.history| - |done|]
    ensures Backed(r, n', rest)
  {
    forall j | 0 <= j < |rest| && j < |n'.history| ensures StepOf(r, n', rest[j], j) {
      assert StepOf(r, n, (done + rest)[|done| + j], |done| + j);
    }
  }

  /** After a switch that succeeds, undo reaches through the new branch into the common blocks. */
  lemma SwitchedBacked<S(!new), T(!new)>(r: Rules<S, T>, n: Node<S, T>, first: seq<Block<T>>, second: seq<Block<T>>, rest: seq<Block<T>>)
    requires Lawful(r) && Switching(r, n, first, second)
    requires Backed(r, n, second + rest) && |second| + |rest| <= |n.history|
    requires SwitchTo(r, n, first, second).Switched?
    ensures Backed(r, SwitchTo(r, n, first, second).node, first + rest)
  {
    PopToFork(r, n, first, second);
    var n1 := PopDown(r, n, Held(first + second), Last(second).previous).0;
    PopBacked(r, n, n1, second, rest);
    ClimbBacked(r, n1, first, rest);
    assert first[0..] == first;
  }

  /** After a switch that was taken back, through the old branch into the common blocks. */
  lemma RestoredBacked<S(!new), T(!new)>(r: Rules<S, T>, n: Node<S, T>, first: seq<Block<T>>, second: seq<Block<T>>, rest: seq<Block<T>>)
    requires Lawful(r) && Switching(r, n, first, second)
    requires Backed(r, n, second + rest) && |second| + |rest| <= |n.history|
    requires SwitchTo(r, n, first, second).Restored?
    ensures Backed(r, SwitchTo(r, n, first, second).node, second + rest)
  {
    PopToFork(r, n, first, second);
    var held, target := Held(first + second), Last(second).previous;
    var n1 := PopDown(r, n, held, target).0;
    PopBacked(r, n, n1, second, rest);
    HeadAtFork(r, n, second);
    var (n2, left) := Climb(r, n1, first);
    var (n3, ok) := PopDown(r, Abandon(n2, left, second[0]), held, target);
    PoppedBacked(r, n1, first, rest, held, second[0]);
    ClimbedBacked(r, n3, second, rest);
  }

  /** After a climb that gets past all its blocks, whether or not there was a state to go back to. */
  lemma ClimbedBacked<S(!new), T(!new)>(r: Rules<S, T>, n: Node<S, T>, br: seq<Block<T>>, done: seq<Block<T>>)
    requires Lawful(r) && n.room > 0 && Backed(r, n, done) && Climb(r, n, br).1 == []
    ensures Backed(r, Climb(r, n, br).0, br + done)
  {
    var kept := if n.history == [] then [] else done;
    ClimbBacked(r, n, br, kept);
    ClimbedGrows(r, n, br);
    assert br[0..] == br;
    var n' := Climb(r, n, br).0;
    forall j | 0 <= j < |br + done| && j < |n'.history| ensures StepOf(r, n', (br + done)[j], j) {
      assert StepOf(r, n', (br + kept)[j], j);
    }
  }

  lemma {:induction false} ClimbedGrows<S(!new), T(!new)>(r: Rules<S, T>, n: Node<S, T>, br: seq<Block<T>>)
    requires Climb(r, n, br).1 == []
    ensures |Climb(r, n, br).0.history| <= |n.history| + |br|
    decreases |br|
  {
    if br != [] { ClimbedGrows(r, Try(r, n, Last(br)).0, Front(br)); }
  }

  /** After a recovery that got stuck, through what is left of the new branch into the common blocks. */
  lemma BrokenBacked<S(!new), T(!new)>(r: Rules<S, T>, n: Node<S, T>, first: seq<Block<T>>, second: seq<Block<T>>, rest: seq<Block<T>>)
    returns (k: nat)
    requires Lawful(r) && Switching(r, n, first, second)
    requires Backed(r, n, second + rest) && |second| + |rest| <= |n.history|
    requires SwitchTo(r, n, first, second).Broken?
    ensures var n' := SwitchTo(r, n, first, second).node;
      k < |first| && r.head(n'.state) == first[k].Id() && Backed(r, n', first[k..] + rest)
  {
    PopToFork(r, n, first, second);
    var n1 := PopDown(r, n, Held(first + second), Last(second).previous).0;
    PopBacked(r, n, n1, second, rest);
    HeadAtFork(r, n, second);
    var (n2, left) := Climb(r, n1, first);
    ClimbExact(r, n1, first);
    ClimbBacked(r, n1, first, rest);
    SomeApplied(r, n, first, second);
    var j := BrokenAfter(r, n, first, second);
    k := |left| + j;
    StoppedBacked(r, Abandon(n2, left, second[0]), Held(first + second), first[|left|..], rest, SwitchTo(r, n, first, second).node, j);
    assert first[|left|..][j..] == first[k..];
  }

  /** A recovery gets stuck only if there is something to take off. */
  lemma SomeApplied<S(!new), T(!new)>(r: Rules<S, T>, n: Node<S, T>, first: seq<Block<T>>, second: seq<Block<T>>)
    requires Lawful(r) && Switching(r, n, first, second) && SwitchTo(r, n, first, second).Broken?
    ensures var left := AtTop(r, n, first, second).1; left != [] && |left| < |first|
  {
    SwitchOutcome(r, n, first, second);
  }

  lemma StoppedBacked<S(!new), T(!new)>(r: Rules<S, T>, n: Node<S, T>, held: Index<T>, done: seq<Block<T>>, rest: seq<Block<T>>,
                                        n': Node<S, T>, j: nat)
    requires n.forks.head.Some? && StopsAfter(r, n, held, done, n', j) && Backed(r, n, done + rest)
    ensures Backed(r, n', done[j..] + rest)
  {
    assert done[..j] + (done[j..] + rest) == done + rest;
    PopBacked(r, n, n', done[..j], done[j..] + rest);
  }

  lemma PoppedBacked<S(!new), T(!new)>(r: Rules<S, T>, n: Node<S, T>, first: seq<Block<T>>, rest: seq<Block<T>>, held: Index<T>, tip: Block<T>)
    requires Lawful(r) && n.room > 0 && Linked(first) && first != [] && r.head(n.state) == Last(first).previous
    requires Backed(r, n, rest) && |rest| <= |n.history|
    ensures var (n2, left) := Climb(r, n, first);
      var (n3, ok) := PopDown(r, Abandon(n2, left, tip), held, Last(first).previous);
      left != [] && ok ==> Backed(r, n3, rest) && n3.room > 0
  {
    ClimbExact(r, n, first);
    ClimbBacked(r, n, first, rest);
    ClimbRoom(r, n, first);
    var (n2, left) := Climb(r, n, first);
    if left != [] {
      PopThroughDone(r, n2, left, first[|left|..], rest, held, tip, Last(first).previous);
    }
  }

  lemma PopThroughDone<S(!new), T(!new)>(r: Rules<S, T>, n: Node<S, T>, left: seq<Block<T>>, done: seq<Block<T>>, rest: seq<Block<T>>,
                                         held: Index<T>, tip: Block<T>, target: BlockId)
    requires Lawful(r) && Linked(done) && Backed(r, n, done + rest)
    requires if done == [] then r.head(n.state) == target else r.head(n.state) == done[0].Id() && Last(done).previous == target
    ensures var (n', ok) := PopDown(r, Abandon(n, left, tip), held, target);
      ok ==> Backed(r, n', rest) && n'.room == n.room
  {
    if done == [] {
      assert done + rest == rest;
      assert PopDown(r, Abandon(n, left, tip), held, target).0 == Abandon(n, left, tip);
      SameBacking(r, n, Abandon(n, left, tip), rest);
    } else {
      assert Backed(r, n, done) by {
        forall j | 0 <= j < |done| && j < |n.history| ensures StepOf(r, n, done[j], j) {
          assert StepOf(r, n, (done + rest)[j], j);
        }
      }
      PopApplied(r, n, left, done, held, tip);
      var (n', ok) := PopDown(r, Abandon(n, left, tip), held, target);
      if ok { PopBacked(r, n, n', done, rest); }
    }
  }

  lemma SameBacking<S(!new), T(!new)>(r: Rules<S, T>, n: Node<S, T>, n': Node<S, T>, br: seq<Block<T>>)
    requires Backed(r, n, br) && n'.state == n.state && n'.history == n.history
    ensures Backed(r, n', br)
  {
    forall j | 0 <= j < |br| && j < |n'.history| ensures StepOf(r, n', br[j], j) {
      assert StepOf(r, n, br[j], j);
    }
  }

  lemma {:induction false} ClimbRoom<S(!new), T(!new)>(r: Rules<S, T>, n: Node<S, T>, br: seq<Block<T>>)
    requires Lawful(r) && n.room > 0
    ensures Climb(r, n, br).0.room > 0
    decreases |br|
  {
    if br != [] {
      var (n1, ok) := Try(r, n, Last(br));
      if ok { ClimbRoom(r, n1, Front(br)); }
    }
  }

  /** The tree only lost blocks of `full`, and its head is the block `full` has under its id. */
  ghost predicate Agree<T>(full: Index<T>, f: Forks<T>) {
    && (forall id :: id in f.index ==> id in full && f.index[id] == full[id])
    && (f.head.Some? && f.head.value.Id() in full ==> full[f.head.value.Id()] == f.head.value)
  }

  lemma {:induction false} PopDownAgrees<S(!new), T(!new)>(r: Rules<S, T>, n: Node<S, T>, held: Index<T>, target: BlockId, full: Index<T>)
    requires Keyed(full) && Agree(full, n.forks) && (forall id :: id in held ==> id in full && held[id] == full[id])
    ensures Agree(full, PopDown(r, n, held, target).0.forks) && PopDown(r, n, held, target).0.room == n.room
    decreases |n.history|
  {
    if r.head(n.state) != target {
      var (n', ok) := Pop(n, held);
      if ok { PopDownAgrees(r, n', held, target, full); }
    }
  }

  lemma {:induction false} ClimbAgrees<S(!new), T(!new)>(r: Rules<S, T>, n: Node<S, T>, br: seq<Block<T>>, full: Index<T>)
    requires Lawful(r) && Agree(full, n.forks)
    ensures Agree(full, Climb(r, n, br).0.forks)
    decreases |br|
  {
    if br != [] {
      var (n1, ok) := Try(r, n, Last(br));
      if ok { ClimbAgrees(r, n1, Front(br), full); }
    }
  }

  lemma SwitchAgrees<S(!new), T(!new)>(r: Rules<S, T>, n: Node<S, T>, first: seq<Block<T>>, second: seq<Block<T>>)
    requires Lawful(r) && n.room > 0 && Keyed(n.forks.index) && Agree(n.forks.index, n.forks)
    requires first != [] && second != []
    requires IsBranch(n.forks.index, first[0].Id(), first) && IsBranch(n.forks.index, second[0].Id(), second)
    ensures var out := SwitchTo(r, n, first, second).node;
      Agree(n.forks.index, out.forks) && out.room > 0
  {
    var held, target, full := Held(first + second), Last(second).previous, n.forks.index;
    HeldBranches(full, first, second);
    PopDownAgrees(r, n, held, target, full);
    var (n1, ok1) := PopDown(r, n, held, target);
    if ok1 {
      ClimbAgrees(r, n1, first, full);
      ClimbRoom(r, n1, first);
      var (n2, left) := Climb(r, n1, first);
      if left != [] {
        var n2' := Abandon(n2, left, second[0]);
        PopDownAgrees(r, n2', held, target, full);
        var (n3, ok3) := PopDown(r, n2', held, target);
        ClimbAgrees(r, n3, second, full);
        ClimbRoom(r, n3, second);
      }
    }
  }

  /** The old branch is the chain's own: the tree has the blocks undo would take off. */
  lemma {:induction false} BranchIsOurs<S(!new), T(!new)>(r: Rules<S, T>, n: Node<S, T>, second: seq<Block<T>>, blocks: seq<Block<T>>, i: nat)
    requires Lawful(r) && Backed(r, n, blocks) && i < |second| <= |blocks| <= |n.history|
    requires IsBranch(n.forks.index, r.head(n.state), second)
    requires forall b :: b in blocks && b.Id() in n.forks.index ==> n.forks.index[b.Id()] == b
    ensures second[i] == blocks[i]
  {
    assert StepOf(r, n, blocks[i], i);
    if i > 0 {
      BranchIsOurs(r, n, second, blocks, i - 1);
      assert StepOf(r, n, blocks[i - 1], i - 1);
      assert second[i - 1].previous == second[i].Id();
    }
    assert blocks[i].Id() == second[i].Id();
  }

  // ----- when the way back is open ---------------------------------------------------------------

  /** While the blocks of br are tried, from a state on, each that applies asks for at least as much undo as leads
      from it back to the fork. */
  ghost predicate Roomy<S, T>(r: Rules<S, T>, s: S, br: seq<Block<T>>, fork: BlockId)
    decreases |br|
  {
    br == [] ||
    match r.apply(s, Last(br))
    case Applied(s', room) => room + fork.num >= Last(br).Num() && Roomy(r, s', Front(br), fork)
    case Rejected(_) => true
  }

  /** The chain asks for as much undo as leads back to its last irreversible block. */
  ghost predicate Keeps<S(!new), T(!new)>(r: Rules<S, T>, last: S -> nat) {
    forall s, b ::
      match r.apply(s, b)
      case Applied(_, room) => last(s) <= b.Num() && room == b.Num() - last(s) + 1
      case Rejected(asked) => asked.Some? ==> last(s) <= b.Num() && asked.value == b.Num() - last(s) + 1
  }

  /** Whenever a block of br applies, the last irreversible block is no higher than the first above the fork. */
  ghost predicate StaysBelow<S, T>(r: Rules<S, T>, last: S -> nat, s: S, br: seq<Block<T>>, fork: BlockId)
    decreases |br|
  {
    br == [] ||
    match r.apply(s, Last(br))
    case Applied(s', _) => last(s) <= fork.num + 1 && StaysBelow(r, last, s', Front(br), fork)
    case Rejected(_) => true
  }

  lemma {:induction false} RoomyIffBelow<S(!new), T(!new)>(r: Rules<S, T>, last: S -> nat, s: S, br: seq<Block<T>>, fork: BlockId)
    requires Keeps(r, last)
    ensures Roomy(r, s, br, fork) <==> StaysBelow(r, last, s, br, fork)
    decreases |br|
  {
    if br != [] {
      var v := r.apply(s, Last(br));
      if v.Applied? { RoomyIffBelow(r, last, v.state, Front(br), fork); }
    }
  }

  /** The undo states of all the blocks applied above the fork are left exactly if each asked for enough. */
  lemma {:induction false} ClimbDepthIff<S(!new), T(!new)>(r: Rules<S, T>, n: Node<S, T>, br: seq<Block<T>>, fork: BlockId, k: nat)
    requires Lawful(r) && Linked(br) && br != [] && Last(br).Num() == fork.num + k + 1
    requires n.room > 0 && (k > 0 ==> n.history != [])
    ensures var (n', left) := Climb(r, n, br);
      && |left| <= |br|
      && (left != [] ==>
            (k + |br| - |left| <= |n'.history| <==> k <= |n.history| && k <= n.room && Roomy(r, n.state, br, fork)))
    decreases |br|
  {
    ClimbOnce(r, n, br);
    var (n1, ok) := Try(r, n, Last(br));
    if ok && |br| > 1 {
      assert br[|br| - 2].previous == br[|br| - 1].Id();
      ClimbDepthIff(r, n1, Front(br), fork, k + 1);
    }
  }

  /** The block at the fork stays in the tree: limits are never 0. */
  lemma {:induction false} ClimbKeepsFork<S(!new), T(!new)>(r: Rules<S, T>, n: Node<S, T>, br: seq<Block<T>>, fork: BlockId)
    requires Lawful(r) && Keyed(n.forks.index) && fork in n.forks.index
    requires n.forks.head.Some? && n.forks.head.value.Num() == fork.num + 1
    ensures fork in Climb(r, n, br).0.forks.index
    decreases |br|
  {
    if br != [] {
      var (n1, ok) := Try(r, n, Last(br));
      assert Keyed(n1.forks.index) && fork in n1.forks.index;
      if ok { ClimbKeepsFork(r, n1, Front(br), fork); }
    }
  }

  /** A push that switches to a branch one block higher from a known block. */
  ghost predicate Usual<S, T>(r: Rules<S, T>, n: Node<S, T>, first: seq<Block<T>>, second: seq<Block<T>>) {
    Switching(r, n, first, second) && Keyed(n.forks.index) && |first| == |second| + 1 && Last(second).previous in n.forks.index
  }

  /** All or nothing. */
  ghost predicate Atomic<S, T>(r: Rules<S, T>, n: Node<S, T>, first: seq<Block<T>>, second: seq<Block<T>>)
    requires first != [] && second != []
  {
    var out := SwitchTo(r, n, first, second);
    out.Switched? || out.node.state == n.state
  }

  lemma AboveNumbers<T>(first: seq<Block<T>>, second: seq<Block<T>>)
    requires Meet(first, second)
    ensures Last(first).previous == Last(second).previous
  {}

  /** The old branch can be walked down as far as the new one was climbed. */
  lemma WalkOpen<T>(full: Index<T>, index: Index<T>, first: seq<Block<T>>, second: seq<Block<T>>, left: seq<Block<T>>)
    requires TwoBranches(full, first, second) && Last(first).previous == Last(second).previous && Linked(first)
    requires left <= first && |first| - |left| <= |second|
    requires Last(second).previous in index && forall id :: id in index ==> id in full && index[id] == full[id]
    ensures Walk(index - Ids(left), Held(first + second), second[0], |first| - |left|).Some?
  {
    AboveFork(first, left, Last(second).previous);
    var rest := index - Ids(left);
    assert Last(second).previous in rest && forall id :: id in rest ==> id in full && rest[id] == full[id];
    WalkToFork(full, rest, first, second, |first| - |left|);
  }

  /** What the climb comes to, from the node at the fork. */
  lemma ClimbFromFork<S(!new), T(!new)>(r: Rules<S, T>, n: Node<S, T>, first: seq<Block<T>>, fork: BlockId)
    requires Lawful(r) && first != [] && Linked(first) && Last(first).previous == fork
    requires n.room > 0 && Keyed(n.forks.index) && fork in n.forks.index && n.forks.head == Some(Last(first))
    ensures var (n2, left) := Climb(r, n, first);
      && left <= first && (left == [] <==> Fold(r, n.state, first).Some?)
      && (left != [] ==> (|first| - |left| <= |n2.history| <==> Roomy(r, n.state, first, fork)))
      && fork in n2.forks.index
      && (forall id :: id in n2.forks.index ==> id in n.forks.index && n2.forks.index[id] == n.forks.index[id])
  {
    ClimbExact(r, n, first);
    ClimbDepthIff(r, n, first, fork, 0);
    ClimbKeepsFork(r, n, first, fork);
    ClimbTrims(r, n, first);
  }

  /** After a climb from state s the new branch is taken, or the way back is open exactly when there was room for it. */
  ghost predicate BackIff<S, T>(r: Rules<S, T>, s: S, first: seq<Block<T>>, second: seq<Block<T>>, fork: BlockId,
                                n2: Node<S, T>, left: seq<Block<T>>)
    requires second != []
  {
    && |left| <= |first| && (left == [] <==> Fold(r, s, first).Some?)
    && (left != [] ==>
          (WayBack(n2, left, |first| - |left|, Held(first + second), second[0]) <==> Roomy(r, s, first, fork)))
  }

  /** From the node at the fork, undo states are all that may be missing for the way back. */
  lemma BackFromTopIff<S(!new), T(!new)>(r: Rules<S, T>, n: Node<S, T>, first: seq<Block<T>>, second: seq<Block<T>>, fork: BlockId,
                                         n2: Node<S, T>, left: seq<Block<T>>)
    requires Lawful(r) && TwoBranches(n.forks.index, first, second) && Linked(first) && |first| == |second| + 1
    requires Last(first).previous == fork && Last(second).previous == fork
    requires n.room > 0 && Keyed(n.forks.index) && fork in n.forks.index && n.forks.head == Some(Last(first))
    requires (n2, left) == Climb(r, n, first)
    ensures BackIff(r, n.state, first, second, fork, n2, left)
  {
    ClimbFromFork(r, n, first, fork);
    WayBackIff(n.forks.index, n2, first, second, left);
  }

  lemma WayBackIff<S, T>(full: Index<T>, n2: Node<S, T>, first: seq<Block<T>>, second: seq<Block<T>>, left: seq<Block<T>>)
    requires TwoBranches(full, first, second) && Linked(first) && |first| == |second| + 1 && left <= first
    requires Last(first).previous == Last(second).previous && Last(second).previous in n2.forks.index
    requires forall id :: id in n2.forks.index ==> id in full && n2.forks.index[id] == full[id]
    ensures var k := |first| - |left|;
      left != [] ==> (WayBack(n2, left, k, Held(first + second), second[0]) <==> k <= |n2.history|)
  {
    if left != [] { WalkOpen(full, n2.forks.index, first, second, left); }
  }

  /** The node at the fork, as BackFromTopIff needs it. */
  lemma AtFork<S(!new), T(!new)>(r: Rules<S, T>, n: Node<S, T>, first: seq<Block<T>>, second: seq<Block<T>>) returns (n1: Node<S, T>)
    requires Lawful(r) && Usual(r, n, first, second)
    ensures n1 == PopDown(r, n, Held(first + second), Last(second).previous).0
    ensures n1.state == Before(n, |second|) && n1.room == n.room && n1.forks == n.forks.(head := Some(Last(first)))
    ensures Last(first).previous == Last(second).previous && Linked(first)
  {
    PopToFork(r, n, first, second);
    AboveNumbers(first, second);
    n1 := PopDown(r, n, Held(first + second), Last(second).previous).0;
  }

  lemma TopDepthIff<S(!new), T(!new)>(r: Rules<S, T>, n: Node<S, T>, first: seq<Block<T>>, second: seq<Block<T>>)
    requires Lawful(r) && Usual(r, n, first, second)
    ensures var (n2, left) := AtTop(r, n, first, second);
      BackIff(r, Before(n, |second|), first, second, Last(second).previous, n2, left)
  {
    var n1 := AtFork(r, n, first, second);
    var (n2, left) := AtTop(r, n, first, second);
    BackFromTopIff(r, n1, first, second, Last(second).previous, n2, left);
  }

  /** In terms of the node before the push: it is all or nothing exactly when the new branch is valid, or all its
      blocks that apply, from the state at the fork on, ask for as much undo as leads back to the fork. Where the
      old head is the parent of the new tip, there is nothing to go back to. */
  lemma UsualIsAtomicIff<S(!new), T(!new)>(r: Rules<S, T>, n: Node<S, T>, first: seq<Block<T>>, second: seq<Block<T>>)
    requires Lawful(r) && Usual(r, n, first, second)
    ensures Atomic(r, n, first, second) <==>
      || Fold(r, Before(n, |second|), first).Some?
      || Last(first) == Last(second)
      || Roomy(r, Before(n, |second|), first, Last(second).previous)
  {
    SwitchIsAtomicIff(r, n, first, second);
    TopDepthIff(r, n, first, second);
    if Last(first) == Last(second) { AncestorFirst(r, n, first, second); }
  }

  /** Under the chain's own rule: or the last irreversible block is, whenever a block applies, no higher than the
      first above the fork. */
  lemma ChainIsAtomicIff<S(!new), T(!new)>(r: Rules<S, T>, last: S -> nat, n: Node<S, T>, first: seq<Block<T>>, second: seq<Block<T>>)
    requires Lawful(r) && Keeps(r, last) && Usual(r, n, first, second)
    ensures Atomic(r, n, first, second) <==>
      || Fold(r, Before(n, |second|), first).Some?
      || Last(first) == Last(second)
      || StaysBelow(r, last, Before(n, |second|), first, Last(second).previous)
  {
    UsualIsAtomicIff(r, n, first, second);
    RoomyIffBelow(r, last, Before(n, |second|), first, Last(second).previous);
  }

  lemma AboveFork<T>(first: seq<Block<T>>, left: seq<Block<T>>, fork: BlockId)
    requires first != [] && Linked(first) && Last(first).previous == fork && left <= first
    ensures fork !in Ids(left)
  {
    LinkedNumbers(first, |first| - 1);
    forall i | 0 <= i < |left| ensures left[i].Id() != fork {
      LinkedNumbers(first, i);
      assert left[i] == first[i];
    }
  }

  /** Climbing only drops blocks from the tree. */
  lemma {:induction false} ClimbTrims<S(!new), T(!new)>(r: Rules<S, T>, n: Node<S, T>, br: seq<Block<T>>)
    ensures var index := Climb(r, n, br).0.forks.index;
      forall id :: id in index ==> id in n.forks.index && index[id] == n.forks.index[id]
    decreases |br|
  {
    if br != [] {
      var (n1, ok) := Try(r, n, Last(br));
      if ok { ClimbTrims(r, n1, Front(br)); }
    }
  }

  ghost predicate TwoBranches<T>(index: Index<T>, first: seq<Block<T>>, second: seq<Block<T>>) {
    first != [] && second != [] && IsBranch(index, first[0].Id(), first) && IsBranch(index, second[0].Id(), second)
  }

  lemma WalkToFork<T>(full: Index<T>, index: Index<T>, first: seq<Block<T>>, second: seq<Block<T>>, k: nat)
    requires TwoBranches(full, first, second) && k <= |second| && Last(second).previous in index
    requires forall id :: id in index ==> id in full && index[id] == full[id]
    ensures Walk(index, Held(first + second), second[0], k).Some?
  {
    var held := Held(first + second);
    HeldBranches(full, first, second);
    assert forall i :: 0 <= i < |second| ==> Lookup(index, held, second[i].Id()) == Some(second[i]);
    if k < |second| {
      WalkBranch(index, held, second, k);
    } else {
      WalkBranch(index, held, second, k - 1);
      WalkOneMore(index, held, second[0], k - 1);
    }
  }

  lemma {:induction false} WalkOneMore<T>(index: Index<T>, held: Index<T>, b: Block<T>, k: nat)
    requires Walk(index, held, b, k).Some?
    ensures Walk(index, held, b, k + 1) ==
      (match Lookup(index, held, Walk(index, held, b, k).value.previous) case None => None case Some(p) => Some(p))
    decreases k
  {
    if k > 0 { WalkOneMore(index, held, Lookup(index, held, b.previous).value, k - 1); }
  }

  /** Rules with the chain's own undo depth: states are a head and a last irreversible block, blocks say what
      they make irreversible. */
  datatype Ledger = Ledger(head: BlockId, last: nat)

  datatype Ballot = Ballot(valid: bool, last: nat)

  function LedgerRules(): Rules<Ledger, Ballot> {
    Rules((s: Ledger, b: Block<Ballot>) =>
            if b.previous != s.head || s.last > b.Num() then Rejected(None)
            else if b.body.valid && s.last <= b.body.last <= b.Num() then Applied(Ledger(b.Id(), b.body.last), b.Num() - s.last + 1)
            else Rejected(Some(b.Num() - s.last + 1)),
          (s: Ledger) => s.head)
  }

  function LastOf(): Ledger -> nat {
    (s: Ledger) => s.last
  }

  lemma LedgerLawful()
    ensures Lawful(LedgerRules()) && Keeps(LedgerRules(), LastOf())
  {}

  /** Block 1, one block above it, and two others, the second of which is invalid. */
  function Ground(x: nat): Block<Ballot> {
    Block(NO_BLOCK, x, Ballot(true, 1))
  }

  function Ours(x: nat): Block<Ballot> {
    Block(Ground(x).Id(), x, Ballot(true, 1))
  }

  function Theirs(x: nat): Block<Ballot> {
    Block(Ground(x).Id(), x + 1, Ballot(true, 1))
  }

  function Worse(x: nat): Block<Ballot> {
    Block(Theirs(x).Id(), x, Ballot(false, 1))
  }

  function Parted(x: nat): Node<Ledger, Ballot> {
    var index := map[Ground(x).Id() := Ground(x), Ours(x).Id() := Ours(x), Theirs(x).Id() := Theirs(x), Worse(x).Id() := Worse(x)];
    Node(Ledger(Ours(x).Id(), 1), [Ledger(Ground(x).Id(), 1)], 2, Forks(index, Some(Worse(x)), 2))
  }

  lemma PartedSwitching(x: nat)
    ensures Switching(LedgerRules(), Parted(x), [Worse(x), Theirs(x)], [Ours(x)])
  {
    var first, second := [Worse(x), Theirs(x)], [Ours(x)];
    assert StepOf(LedgerRules(), Parted(x), Ours(x), 0);
    assert Meet(first, second);
  }

  lemma PartedBelow(x: nat)
    ensures var r, s, first := LedgerRules(), Before(Parted(x), 1), [Worse(x), Theirs(x)];
      StaysBelow(r, LastOf(), s, first, Ground(x).Id()) && Fold(r, s, first).None?
  {
    var r, s, first := LedgerRules(), Before(Parted(x), 1), [Worse(x), Theirs(x)];
    var s1 := Ledger(Theirs(x).Id(), 1);
    assert Front(first) == [Worse(x)] && Last(first) == Theirs(x);
    assert r.apply(s, Theirs(x)) == Applied(s1, 2) && r.apply(s1, Worse(x)).Rejected?;
    assert StaysBelow(r, LastOf(), s1, [Worse(x)], Ground(x).Id());
    assert Fold(r, s1, [Worse(x)]).None?;
  }

  /** Two branches above block 1, the longer of which ends in an invalid block: everything that is asked for
      holds, and the node is back where it was. */
  lemma LedgerSwitchRestores(x: nat)
    ensures var r, n, first, second := LedgerRules(), Parted(x), [Worse(x), Theirs(x)], [Ours(x)];
      && Lawful(r) && Keeps(r, LastOf()) && Usual(r, n, first, second)
      && StaysBelow(r, LastOf(), Before(n, |second|), first, Last(second).previous)
      && SwitchTo(r, n, first, second).Restored?
  {
    var r, n, first, second := LedgerRules(), Parted(x), [Worse(x), Theirs(x)], [Ours(x)];
    LedgerLawful();
    PartedSwitching(x);
    PartedBelow(x);
    RoomyIffBelow(r, LastOf(), Before(n, 1), first, Ground(x).Id());
    TopDepthIff(r, n, first, second);
    SwitchOutcome(r, n, first, second);
  }

  // ----- when it is closed --------------------------------------------------------------------------

  /** Two branches above block 1: three blocks, and four others that make block 3 irreversible, the last of which
      is invalid. */
  function Ours2(x: nat): Block<Ballot> { Block(Ours(x).Id(), x, Ballot(true, 1)) }

  function Ours3(x: nat): Block<Ballot> { Block(Ours2(x).Id(), x, Ballot(true, 1)) }

  function Theirs2(x: nat): Block<Ballot> { Block(Theirs(x).Id(), x + 1, Ballot(true, 3)) }

  function Theirs3(x: nat): Block<Ballot> { Block(Theirs2(x).Id(), x + 1, Ballot(true, 3)) }

  function Worse4(x: nat): Block<Ballot> { Block(Theirs3(x).Id(), x + 1, Ballot(false, 3)) }

  function Higher(x: nat): seq<Block<Ballot>> {
    [Worse4(x), Theirs3(x), Theirs2(x), Theirs(x)]
  }

  function Lower(x: nat): seq<Block<Ballot>> {
    [Ours3(x), Ours2(x), Ours(x)]
  }

  function Drifted(x: nat): Node<Ledger, Ballot> {
    var index := map[Ground(x).Id() := Ground(x), Ours(x).Id() := Ours(x), Ours2(x).Id() := Ours2(x), Ours3(x).Id() := Ours3(x),
                     Theirs(x).Id() := Theirs(x), Theirs2(x).Id() := Theirs2(x), Theirs3(x).Id() := Theirs3(x), Worse4(x).Id() := Worse4(x)];
    Node(Ledger(Ours3(x).Id(), 1), [Ledger(Ground(x).Id(), 1), Ledger(Ours(x).Id(), 1), Ledger(Ours2(x).Id(), 1)], 4,
         Forks(index, Some(Worse4(x)), 4))
  }

  lemma DriftedBacked(x: nat)
    ensures Backed(LedgerRules(), Drifted(x), Lower(x))
  {
    var r, n := LedgerRules(), Drifted(x);
    assert StepOf(r, n, Ours3(x), 0) && StepOf(r, n, Ours2(x), 1) && StepOf(r, n, Ours(x), 2);
  }

  lemma DriftedMeet(x: nat)
    ensures Meet(Higher(x), Lower(x))
  {}

  lemma DriftedBranches(x: nat)
    ensures Keyed(Drifted(x).forks.index) && TwoBranches(Drifted(x).forks.index, Higher(x), Lower(x))
  {}

  lemma DriftedUsual(x: nat)
    ensures Usual(LedgerRules(), Drifted(x), Higher(x), Lower(x))
  {
    DriftedBacked(x);
    DriftedMeet(x);
    DriftedBranches(x);
  }

  lemma DriftedAbove(x: nat)
    ensures var r, s := LedgerRules(), Before(Drifted(x), 3);
      Fold(r, s, Higher(x)).None? && !StaysBelow(r, LastOf(), s, Higher(x), Ground(x).Id())
  {
    var r, s, fork := LedgerRules(), Ledger(Ground(x).Id(), 1), Ground(x).Id();
    var s1, s2, s3 := Ledger(Theirs(x).Id(), 1), Ledger(Theirs2(x).Id(), 3), Ledger(Theirs3(x).Id(), 3);
    var b1, b2, b3 := [Worse4(x)], [Worse4(x), Theirs3(x)], [Worse4(x), Theirs3(x), Theirs2(x)];
    assert Front(Higher(x)) == b3 && Front(b3) == b2 && Front(b2) == b1;
    assert r.apply(s, Theirs(x)) == Applied(s1, 2) && r.apply(s1, Theirs2(x)) == Applied(s2, 3);
    assert r.apply(s2, Theirs3(x)) == Applied(s3, 2) && r.apply(s3, Worse4(x)).Rejected?;
    assert Fold(r, s3, b1).None?;
    assert Fold(r, s2, b2).None? && !StaysBelow(r, LastOf(), s2, b2, fork);
    assert Fold(r, s1, b3).None? && !StaysBelow(r, LastOf(), s1, b3, fork);
  }

  /** The third of them asks for two undo states where three blocks have been applied, and the way back is closed,
      though the fork is a known block. */
  lemma LedgerSwitchBreaks(x: nat)
    ensures var r, n := LedgerRules(), Drifted(x);
      && Lawful(r) && Keeps(r, LastOf()) && Usual(r, n, Higher(x), Lower(x))
      && SwitchTo(r, n, Higher(x), Lower(x)).Broken? && SwitchTo(r, n, Higher(x), Lower(x)).node.state != n.state
  {
    var r, n := LedgerRules(), Drifted(x);
    LedgerLawful();
    DriftedUsual(x);
    DriftedAbove(x);
    ChainIsAtomicIff(r, LastOf(), n, Higher(x), Lower(x));
    SwitchOutcome(r, n, Higher(x), Lower(x));
  }

  /** Blocks that say whether they are valid, on states that are just head ids. */
  function ToyRules(): Rules<BlockId, bool> {
    Rules((s: BlockId, b: Block<bool>) => if b.previous == s && b.body then Applied(b.Id(), 256) else Rejected(None),
          (s: BlockId) => s)
  }

  const OLD := Block(NO_BLOCK, 1, true)
  const NEW := Block(NO_BLOCK, 2, true)
  const INVALID := Block(NEW.Id(), 3, false)

  /** One block above genesis, and two others. */
  function AtGenesis(): Node<BlockId, bool> {
    Node(OLD.Id(), [NO_BLOCK], 256, Forks(map[OLD.Id() := OLD, NEW.Id() := NEW, INVALID.Id() := INVALID], Some(INVALID), 1024))
  }

  lemma GenesisSwitching()
    ensures Lawful(ToyRules()) && Switching(ToyRules(), AtGenesis(), [INVALID, NEW], [OLD])
  {
    assert StepOf(ToyRules(), AtGenesis(), OLD, 0);
    assert Meet([INVALID, NEW], [OLD]);
  }

  /** The new branch gets one block far. */
  lemma GenesisClimb(n: Node<BlockId, bool>)
    requires n.state == NO_BLOCK
    ensures Climb(ToyRules(), n, [INVALID, NEW]).1 == [INVALID] && Fold(ToyRules(), n.state, [INVALID, NEW]).None?
  {
    var r, first := ToyRules(), [INVALID, NEW];
    assert Front(first) == [INVALID];
    var n1 := Try(r, n, NEW).0;
    assert Climb(r, n1, [INVALID]).1 == [INVALID];
  }

  lemma GenesisClosed(n2: Node<BlockId, bool>)
    requires NO_BLOCK !in n2.forks.index
    ensures !WayBack(n2, [INVALID], 1, Held([INVALID, NEW] + [OLD]), OLD)
  {
    var index := AtGenesis().forks.index;
    HeldBranches(index, [INVALID, NEW], [OLD]);
    assert NO_BLOCK !in index;
  }

  /** Two chains that part at genesis, which is no block: the longer one's second block is invalid, the
      recovery throws when the tree's head has no parent, and the node is left on the losing branch. */
  lemma GenesisForkBreaks()
    ensures var r, n, first, second := ToyRules(), AtGenesis(), [INVALID, NEW], [OLD];
      && Lawful(r) && Switching(r, n, first, second)
      && SwitchTo(r, n, first, second).Broken? && SwitchTo(r, n, first, second).node.state != n.state
  {
    var r, n, first, second := ToyRules(), AtGenesis(), [INVALID, NEW], [OLD];
    GenesisSwitching();
    PopToFork(r, n, first, second);
    var n1 := PopDown(r, n, Held(first + second), NO_BLOCK).0;
    GenesisClimb(n1);
    ClimbTrims(r, n1, first);
    GenesisClosed(Climb(r, n1, first).0);
    SwitchOutcome(r, n, first, second);
    SwitchIsAtomicIff(r, n, first, second);
  }
}
