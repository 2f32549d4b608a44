/** Pushing and popping blocks: the loops of _push_block over branches, undo states and the tree. */
module BlockChain {
  import opened Wrappers
  import opened ForkDatabase
  import opened ForkSwitch
  import opened Stacks

  /** How a push ends. Moved returns true, Extended and Ignored return false, the others throw. */
  datatype Push = Extended | Ignored | Refused | Moved | MovedBack | Stuck

  /** The blocks undo still reaches. */
  function Reach<T>(blocks: seq<Block<T>>, depth: nat): seq<Block<T>> {
    if |blocks| > depth then blocks[..depth] else blocks
  }

  /** What a switch leaves of the chain, as far down as undo reaches: the new branch, or the old one as it was, or,
      when the recovery got stuck, the new branch up to the head. */
  ghost predicate Rests<T(!new)>(push: Push, first: seq<Block<T>>, second: seq<Block<T>>, before: seq<Block<T>>, head: BlockId,
                                 blocks: seq<Block<T>>, depth: nat)
    requires |second| <= |before|
  {
    var rest := before[|second|..];
    && (push.Moved? ==> blocks == Reach(first + rest, depth))
    && (push.MovedBack? ==> blocks == Reach(before, depth))
    && (push.Stuck? ==> exists k :: 0 <= k < |first| && head == first[k].Id() && blocks == Reach(first[k..] + rest, depth))
  }

  predicate Switches(push: Push) {
    push.Moved? || push.MovedBack? || push.Stuck?
  }

  /** Which outcome a push has, from the node before it; `begin` is the node once the block is in the tree.
      - A block that does not fit the tree is refused.
      - A head of the tree that is not on top of the chain's is ignored when it is no higher, and refused when its
        branch never meets the chain's.
      - Otherwise the block is next, and refused when it is invalid. */
  ghost predicate Answers<S(!new), T(!new)>(r: Rules<S, T>, n: Node<S, T>, b: Block<T>, skipForkDb: bool, begin: Node<S, T>, push: Push) {
    var top, head := Top(n.forks, b), r.head(n.state);
    var next := skipForkDb || (Acceptable(n.forks, b) && top.previous == head);
    var aside := !skipForkDb && Acceptable(n.forks, b) && top.previous != head;
    && (push.Ignored? <==> aside && top.Num() <= head.num)
    && (Switches(push) <==> aside && top.Num() > head.num && !NeverJoined(begin.forks.index, top.Id(), head))
    && (push.Extended? <==> next && r.apply(n.state, b).Applied?)
  }

  /** The block is applied, what it changed can be undone, and the tree keeps as much as it asked for. */
  ghost predicate Extends<S, T>(r: Rules<S, T>, n: Node<S, T>, b: Block<T>, n': Node<S, T>) {
    && r.apply(n.state, b) == Applied(n'.state, n'.room) && r.head(n'.state) == b.Id()
    && n'.history == Trim(n.history, n.room) + [n.state]
    && n'.forks == WithMaxSize(n.forks, n'.room)
  }

  /** A switch ends on the new tip exactly when all the new branch applies from the state at the fork on, and then in
      the state it leads to; otherwise in the state before it, or on another block of the new branch. */
  ghost predicate SwitchEnds<S, T>(r: Rules<S, T>, n: Node<S, T>, first: seq<Block<T>>, second: seq<Block<T>>, push: Push, n': Node<S, T>)
    requires first != [] && second != [] && |second| <= |n.history|
  {
    var end := Fold(r, Before(n, |second|), first);
    && (push.Moved? <==> end.Some?)
    && (push.Moved? ==> Some(n'.state) == end && r.head(n'.state) == first[0].Id())
    && (push.MovedBack? ==> n'.state == n.state)
    && (push.Stuck? ==> exists b :: b in first && r.head(n'.state) == b.Id())
  }

  /** The chain goes from its own branch `second` to `first`, the branch of the tree's head that meets it. What that
      leaves is described where undo reaches back to the meeting point. */
  ghost predicate Moves<S(!new), T(!new)>(r: Rules<S, T>, n: Node<S, T>, first: seq<Block<T>>, second: seq<Block<T>>,
                                          before: seq<Block<T>>, push: Push, n': Node<S, T>, blocks: seq<Block<T>>)
    requires first != [] && |before| <= |n.history|
  {
    && Meet(first, second)
    && IsBranch(n.forks.index, first[0].Id(), first) && IsBranch(n.forks.index, r.head(n.state), second)
    && (|second| <= |before| ==>
          && Switching(r, n, first, second) && SwitchEnds(r, n, first, second, push, n')
          && Rests(push, first, second, before, r.head(n'.state), blocks, |n'.history|))
    && var out := SwitchTo(r, n, first, second);
       n' == out.node && push == EndOf(out)
  }

  function EndOf<S, T>(out: Outcome<S, T>): Push {
    match out
    case Switched(_) => Moved
    case Restored(_) => MovedBack
    case Broken(_) => Stuck
  }

  /** The tree has no other block under the id of one of br. */
  ghost predicate Known<T>(index: Index<T>, br: seq<Block<T>>) {
    forall b :: b in br && b.Id() in index ==> index[b.Id()] == b
  }

  class Chain<S(!new), T(!new, ==)> {
    const rules: Rules<S, T>
    const forks: Tree<T>
    var state: S
    var history: seq<S>
    var room: nat
    /** The newest blocks of the chain, tip first. */
    ghost var blocks: seq<Block<T>>

    ghost function Here(): Node<S, T>
      reads this, forks
    {
      Node(state, history, room, forks.State())
    }

    ghost predicate Valid()
      reads this, forks
    {
      && Lawful(rules) && forks.Valid() && room > 0
      && Backed(rules, Here(), blocks) && |blocks| <= |history|
      && Agree(forks.index, forks.State())
      && Known(forks.index, blocks)
    }

    constructor (rules: Rules<S, T>, genesis: S)
      requires Lawful(rules)
      ensures Valid() && fresh(forks) && this.rules == rules
      ensures Here() == Node(genesis, [], 10, Forks(map[], None, 1024)) && blocks == []
    {
      this.rules := rules;
      forks := new Tree();
      state, history, room, blocks := genesis, [], 10, [];
    }

    /** A block inside its own session. */
    method Apply(b: Block<T>) returns (ok: bool)
      requires forks.Valid()
      modifies this`state, this`history, this`room, forks
      ensures forks.Valid() && (Here(), ok) == Try(rules, old(Here()), b)
    {
      while |history| > room
        invariant Trim(history, room) == Trim(old(history), room)
        invariant forks.Valid() && unchanged(forks)
        modifies this`history
      {
        history := history[1..];
      }
      match rules.apply(state, b)
      case Applied(s, asked) =>
        history := history + [state];
        state, room := s, asked;
        forks.SetMaxSize(asked);
        ok := true;
      case Rejected(asked) =>
        if history == [] {
          history := [state];
        }
        if asked.Some? {
          room := asked.value;
          forks.SetMaxSize(room);
        }
        ok := false;
    }

    method PopBlock(held: Index<T>) returns (ok: bool)
      requires forks.Valid()
      modifies this`state, this`history, forks`head
      ensures forks.Valid() && (Here(), ok) == Pop(old(Here()), held)
    {
      if forks.head.None? {
        return false;
      }
      var prev := Lookup(forks.index, held, forks.head.value.previous);
      if prev.None? {
        return false;
      }
      forks.SetHead(prev.value);
      if history == [] {
        return false;
      }
      state, history := history[|history| - 1], history[..|history| - 1];
      ok := true;
    }

    method PopUntil(held: Index<T>, target: BlockId) returns (ok: bool)
      requires forks.Valid()
      modifies this`state, this`history, forks`head
      ensures forks.Valid() && (Here(), ok) == PopDown(rules, old(Here()), held, target)
    {
      while rules.head(state) != target
        invariant forks.Valid()
        invariant PopDown(rules, Here(), held, target) == PopDown(rules, old(Here()), held, target)
        decreases |history|
      {
        var popped := PopBlock(held);
        if !popped {
          return false;
        }
      }
      ok := true;
    }

    /** Applies a branch from its last block up; returns what it did not get past. */
    method ApplyBranch(br: seq<Block<T>>) returns (left: seq<Block<T>>)
      requires forks.Valid()
      modifies this`state, this`history, this`room, forks
      ensures forks.Valid() && (Here(), left) == Climb(rules, old(Here()), br)
    {
      left := br;
      while left != []
        invariant forks.Valid()
        invariant Climb(rules, Here(), left) == Climb(rules, old(Here()), br)
        decreases |left|
      {
        var applied := Apply(left[|left| - 1]);
        if !applied {
          return;
        }
        left := left[..|left| - 1];
      }
    }

    method RemoveAll(br: seq<Block<T>>)
      requires forks.Valid()
      modifies forks`index
      ensures forks.Valid() && forks.index == old(forks.index) - Ids(br)
    {
      var k := |br|;
      assert forks.index - Ids<T>([]) == forks.index;
      while k > 0
        invariant 0 <= k <= |br| && forks.Valid()
        invariant forks.index == old(forks.index) - Ids(br[k..])
        modifies forks`index
      {
        k := k - 1;
        forks.Remove(br[k].Id());
        assert br[k..] == [br[k]] + br[k + 1..];
        IdsCons(br[k], br[k + 1..]);
      }
      assert br[0..] == br;
    }

    /** The switch, and on failure the way back. */
    method Switch(first: seq<Block<T>>, second: seq<Block<T>>) returns (push: Push)
      requires forks.Valid() && first != [] && second != []
      modifies this`state, this`history, this`room, forks
      ensures forks.Valid()
      ensures var out := SwitchTo(rules, old(Here()), first, second);
        && Here() == out.node
        && push == EndOf(out)
    {
      var target := second[|second| - 1].previous;
      var held := Held(first + second);
      var ok := PopUntil(held, target);
      if !ok {
        return Stuck;
      }
      var left := ApplyBranch(first);
      if left == [] {
        return Moved;
      }
      RemoveAll(left);
      forks.SetHead(second[0]);
      ok := PopUntil(held, target);
      if !ok {
        return Stuck;
      }
      left := ApplyBranch(second);
      return if left == [] then MovedBack else Stuck;
    }

    /** The switch as part of a push: undo keeps matching the chain, through whatever branch is left. */
    method SwitchForks(first: seq<Block<T>>, second: seq<Block<T>>) returns (push: Push)
      requires Valid() && first != [] && second != [] && |first| > |second|
      requires forks.head == Some(first[0]) && rules.head(state) == second[0].Id() && Meet(first, second)
      requires IsBranch(forks.index, first[0].Id(), first) && IsBranch(forks.index, second[0].Id(), second)
      modifies this, forks
      ensures Valid() && Switches(push)
      ensures Moves(rules, old(Here()), first, second, old(blocks), push, Here(), blocks)
    {
      ghost var begin := Here();
      ghost var kept := Destined(rules, begin, first, second, blocks);
      SwitchAgrees(rules, begin, first, second);
      push := Switch(first, second);
      blocks := Reach(kept, |history|);
    }

    /** Ids are hashes: nowhere is there another block with the id of b. */
    ghost predicate NoCollision(b: Block<T>)
      reads this, forks
    {
      && (b.Id() in forks.index ==> forks.index[b.Id()] == b)
      && (forks.head.Some? && forks.head.value.Id() == b.Id() ==> forks.head.value == b)
      && (forall c :: c in blocks && c.Id() == b.Id() ==> c == b)
    }

    method PushTree(b: Block<T>) returns (ok: bool)
      requires Valid() && NoCollision(b)
      modifies forks
      ensures Valid() && NoCollision(b)
      ensures ok <==> Acceptable(old(forks.State()), b)
      ensures forks.State() == if ok then Pushed(old(forks.State()), b) else old(forks.State())
      ensures ok ==> forks.head.Some?
    {
      ghost var begin := Here();
      ok := forks.PushBlock(b);
      SameBacking(rules, begin, Here(), blocks);
    }

    /** A block on top of the head; an invalid one is taken out of the tree again. */
    method Extend(b: Block<T>) returns (ok: bool)
      requires Valid() && NoCollision(b)
      modifies this, forks
      ensures Valid()
      ensures blocks == Reach(if ok then [b] + old(blocks) else old(blocks), |history|)
      ensures var (n, applied) := Try(rules, old(Here()), b);
        && ok == applied && state == n.state && history == n.history && room == n.room
        && forks.head == n.forks.head && forks.maxSize == n.forks.maxSize
        && forks.index == if ok then n.forks.index else n.forks.index - {b.Id()}
    {
      ghost var begin := Here();
      TryBacked(rules, begin, b, blocks);
      TryTree(rules, begin, b, blocks);
      ok := Apply(b);
      ghost var tried := Here();
      blocks := Reach(if ok then [b] + blocks else blocks, |history|);
      if !ok {
        forks.Remove(b.Id());
      }
      SameBacking(rules, tried, Here(), blocks);
    }

    /** The tree's head is not on top of the chain's: the chain moves to its branch if it is higher. */
    method FollowHead() returns (push: Push, ghost first: seq<Block<T>>, ghost second: seq<Block<T>>)
      requires Valid() && forks.head.Some? && forks.head.value.previous != rules.head(state)
      modifies this, forks
      ensures Valid() && !push.Extended?
      ensures push.Ignored? <==> old(forks.head).value.Num() <= rules.head(old(state)).num
      ensures Switches(push) <==>
        && old(forks.head).value.Num() > rules.head(old(state)).num
        && !NeverJoined(old(forks.index), old(forks.head).value.Id(), rules.head(old(state)))
      ensures push.Ignored? || push.Refused? ==> Here() == old(Here()) && blocks == old(blocks)
      ensures Switches(push) ==> first != [] && old(forks.head) == Some(first[0])
                                 && Moves(rules, old(Here()), first, second, old(blocks), push, Here(), blocks)
    {
      first, second := [], [];
      var top := forks.head.value;
      if top.Num() <= rules.head(state).num {
        return Ignored, first, second;
      }
      var branches := FetchBranchFrom(forks.index, top.Id(), rules.head(state));
      if branches.None? {
        return Refused, first, second;
      }
      first, second := branches.value.0, branches.value.1;
      HigherIsLonger(forks.index, top.Id(), rules.head(state), first, second);
      push := SwitchForks(branches.value.0, branches.value.1);
    }

    /** Pushes a block; `begin` is the node once the block is in the tree, whose head then is Top(.., b).
        - Each outcome comes exactly when it should.
        - A head on the chain's head makes the block the next one, if it is valid.
        - A higher head elsewhere makes the chain move to its branch, as SwitchOutcome describes it.
        - Whatever happens, undo keeps matching the chain. */
    method PushBlock(b: Block<T>, skipForkDb: bool)
      returns (push: Push, ghost first: seq<Block<T>>, ghost second: seq<Block<T>>, ghost begin: Node<S, T>)
      requires Valid() && NoCollision(b)
      modifies this, forks
      ensures Valid()
      ensures begin == if !skipForkDb && Acceptable(old(forks.State()), b)
                       then old(Here()).(forks := Pushed(old(forks.State()), b)) else old(Here())
      ensures Answers(rules, old(Here()), b, skipForkDb, begin, push)
      ensures push.Extended? ==> Extends(rules, begin, b, Here()) && blocks == Reach([b] + old(blocks), |history|)
      ensures push.Ignored? ==> Here() == begin
      ensures push.Ignored? || push.Refused? ==> state == old(state) && blocks == Reach(old(blocks), |history|)
      ensures push.Refused? ==> Here() == begin || (forks.head == begin.forks.head && b.Id() !in forks.index)
      ensures Switches(push) ==> first != [] && first[0] == Top(old(forks.State()), b)
                                 && Moves(rules, begin, first, second, old(blocks), push, Here(), blocks)
    {
      first, second, begin := [], [], Here();
      if !skipForkDb {
        var pushed := PushTree(b);
        if !pushed {
          return Refused, first, second, begin;
        }
        begin := Here();
        PushedTree(old(forks.State()), b);
        if forks.head.value.previous != rules.head(state) {
          push, first, second := FollowHead();
          return;
        }
      }
      var ok := Extend(b);
      push := if ok then Extended else Refused;
    }
  }

  lemma IdsCons<T>(b: Block<T>, br: seq<Block<T>>)
    ensures Ids([b] + br) == {b.Id()} + Ids(br)
  {
    var all := [b] + br;
    forall id ensures id in Ids(all) <==> id in {b.Id()} + Ids(br) {
      if id in Ids(br) {
        var i :| 0 <= i < |br| && br[i].Id() == id;
        assert all[i + 1].Id() == id;
      }
      if id == b.Id() { assert all[0].Id() == id; }
    }
  }

  /** The blocks that undo leads back through after a switch. */
  lemma StillOurs<S(!new), T(!new)>(r: Rules<S, T>, n: Node<S, T>, first: seq<Block<T>>, second: seq<Block<T>>, rest: seq<Block<T>>)
    returns (kept: seq<Block<T>>)
    requires Lawful(r) && Switching(r, n, first, second)
    requires Backed(r, n, second + rest) && |second| + |rest| <= |n.history|
    ensures Backed(r, SwitchTo(r, n, first, second).node, kept)
    ensures forall b :: b in kept ==> b in first || b in second || b in rest
    ensures Left(r, SwitchTo(r, n, first, second), first, second, rest, kept)
  {
    match SwitchTo(r, n, first, second)
    case Switched(_) =>
      SwitchedBacked(r, n, first, second, rest);
      kept := first + rest;
    case Restored(_) =>
      RestoredBacked(r, n, first, second, rest);
      kept := second + rest;
    case Broken(_) =>
      var k := BrokenBacked(r, n, first, second, rest);
      kept := first[k..] + rest;
  }

  /** A higher tip has the longer branch. */
  lemma HigherIsLonger<T>(index: Index<T>, a: BlockId, b: BlockId, first: seq<Block<T>>, second: seq<Block<T>>)
    requires IsBranch(index, a, first) && IsBranch(index, b, second) && Meet(first, second) && a.num > b.num
    ensures |first| > |second|
  {
    BranchNumbers(index, a, first, |first| - 1);
    BranchNumbers(index, b, second, |second| - 1);
    assert first[|first| - 1].previous == second[|second| - 1].previous;
  }

  lemma EndOfSwitch<S(!new), T(!new)>(r: Rules<S, T>, n: Node<S, T>, first: seq<Block<T>>, second: seq<Block<T>>)
    requires Lawful(r) && Switching(r, n, first, second)
    ensures var out := SwitchTo(r, n, first, second);
      SwitchEnds(r, n, first, second, EndOf(out), out.node)
  {
    SwitchOutcome(r, n, first, second);
  }

  /** The blocks undo leads back through after a switch: as far as it knows, those of the branch that is left. */
  lemma Destined<S(!new), T(!new)>(r: Rules<S, T>, n: Node<S, T>, first: seq<Block<T>>, second: seq<Block<T>>, blocks: seq<Block<T>>)
    returns (kept: seq<Block<T>>)
    requires Lawful(r) && n.room > 0 && Backed(r, n, blocks) && Known(n.forks.index, blocks)
    requires first != [] && second != [] && |first| > |second| && |blocks| <= |n.history|
    requires n.forks.head == Some(first[0]) && r.head(n.state) == second[0].Id() && Meet(first, second)
    requires IsBranch(n.forks.index, first[0].Id(), first) && IsBranch(n.forks.index, second[0].Id(), second)
    ensures var out := SwitchTo(r, n, first, second);
      && Backed(r, out.node, kept)
      && (forall b :: b in kept ==> b in first || b in second || b in blocks)
      && Moves(r, n, first, second, blocks, EndOf(out), out.node, Reach(kept, |out.node.history|))
  {
    kept := [];
    if |second| <= |blocks| {
      kept := OursKept(r, n, first, second, blocks);
    }
  }

  lemma OursKept<S(!new), T(!new)>(r: Rules<S, T>, n: Node<S, T>, first: seq<Block<T>>, second: seq<Block<T>>, blocks: seq<Block<T>>)
    returns (kept: seq<Block<T>>)
    requires Lawful(r) && n.room > 0 && Backed(r, n, blocks) && Known(n.forks.index, blocks)
    requires first != [] && second != [] && |first| > |second| && |second| <= |blocks| <= |n.history|
    requires n.forks.head == Some(first[0]) && r.head(n.state) == second[0].Id() && Meet(first, second)
    requires IsBranch(n.forks.index, first[0].Id(), first) && IsBranch(n.forks.index, second[0].Id(), second)
    ensures var out := SwitchTo(r, n, first, second);
      && Backed(r, out.node, kept)
      && (forall b :: b in kept ==> b in first || b in second || b in blocks)
      && Switching(r, n, first, second) && SwitchEnds(r, n, first, second, EndOf(out), out.node)
      && Rests(EndOf(out), first, second, blocks, r.head(out.node.state), Reach(kept, |out.node.history|), |out.node.history|)
  {
    OursIsSwitching(r, n, first, second, blocks);
    EndOfSwitch(r, n, first, second);
    ghost var rest := blocks[|second|..];
    assert second + rest == blocks;
    kept := StillOurs(r, n, first, second, rest);
    RestsAfter(r, SwitchTo(r, n, first, second), first, second, blocks, rest, kept);
  }

  /** What a switch leaves the chain resting on. */
  ghost predicate Left<S(!new), T(!new)>(r: Rules<S, T>, out: Outcome<S, T>, first: seq<Block<T>>, second: seq<Block<T>>,
                                         rest: seq<Block<T>>, kept: seq<Block<T>>) {
    match out
    case Switched(_) => kept == first + rest
    case Restored(_) => kept == second + rest
    case Broken(n') => exists k :: 0 <= k < |first| && r.head(n'.state) == first[k].Id() && kept == first[k..] + rest
  }

  lemma RestsAfter<S(!new), T(!new)>(r: Rules<S, T>, out: Outcome<S, T>, first: seq<Block<T>>, second: seq<Block<T>>,
                                     blocks: seq<Block<T>>, rest: seq<Block<T>>, kept: seq<Block<T>>)
    requires second + rest == blocks && Left(r, out, first, second, rest, kept)
    ensures Rests(EndOf(out), first, second, blocks, r.head(out.node.state), Reach(kept, |out.node.history|), |out.node.history|)
  {
    assert blocks[|second|..] == rest;
  }

  lemma OursIsSwitching<S(!new), T(!new)>(r: Rules<S, T>, n: Node<S, T>, first: seq<Block<T>>, second: seq<Block<T>>, blocks: seq<Block<T>>)
    requires Lawful(r) && n.room > 0 && Backed(r, n, blocks) && Known(n.forks.index, blocks)
    requires first != [] && second != [] && |second| <= |blocks| <= |n.history| && |first| > |second|
    requires n.forks.head == Some(first[0]) && r.head(n.state) == second[0].Id() && Meet(first, second)
    requires IsBranch(n.forks.index, first[0].Id(), first) && IsBranch(n.forks.index, second[0].Id(), second)
    ensures Switching(r, n, first, second)
    ensures second == blocks[..|second|]
  {
    forall i | 0 <= i < |second| ensures second[i] == blocks[i] && StepOf(r, n, second[i], i) {
      BranchIsOurs(r, n, second, blocks, i);
      assert StepOf(r, n, blocks[i], i);
    }
  }

  /** Trying a block only drops blocks from the tree. */
  lemma TryTree<S(!new), T(!new)>(r: Rules<S, T>, n: Node<S, T>, b: Block<T>, blocks: seq<Block<T>>)
    requires Keyed(n.forks.index) && Agree(n.forks.index, n.forks) && Known(n.forks.index, blocks)
    requires b.Id() in n.forks.index ==> n.forks.index[b.Id()] == b
    ensures var f := Try(r, n, b).0.forks;
      && Keyed(f.index) && Agree(f.index, f) && Known(f.index, [b] + blocks)
      && Keyed(f.index - {b.Id()}) && Agree(f.index - {b.Id()}, f.(index := f.index - {b.Id()}))
  {
    var f := Try(r, n, b).0.forks;
    forall c | c in [b] + blocks && c.Id() in f.index ensures f.index[c.Id()] == c {
      if c !in blocks { assert c == b; }
    }
  }
}
