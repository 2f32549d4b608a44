/** The tree of recent blocks, and the branches that lead from two of its tips to the
    place where they meet. */
module ForkDatabase {
  import opened Wrappers

  /** An id starts with the number of its block. */
  datatype BlockId = BlockId(num: nat, hash: nat)

  /** The id that stands for "no block": the parent of block 1. */
  const NO_BLOCK := BlockId(0, 0)

  datatype Block<T> = Block(previous: BlockId, hash: nat, body: T) {
    /** A block's number is its parent's plus 1. */
    function Num(): nat {
      previous.num + 1
    }

    function Id(): BlockId {
      BlockId(Num(), hash)
    }
  }

  type Index<T> = map<BlockId, Block<T>>

  ghost predicate Keyed<T>(index: Index<T>) {
    forall id :: id in index ==> index[id].Id() == id
  }

  // ----- branches ---------------------------------------------------------------

  /** br starts at block id and follows parents, tip first. */
  ghost predicate IsBranch<T>(index: Index<T>, id: BlockId, br: seq<Block<T>>) {
    && br != [] && br[0].Id() == id
    && (forall k :: 0 <= k < |br| ==> br[k].Id() in index && index[br[k].Id()] == br[k])
    && (forall i, k :: 0 <= i < k < |br| && k == i + 1 ==> br[i].previous == br[k].Id())
  }

  /** Two branches whose last blocks share their parent, and no blocks before them do. */
  ghost predicate Meet<T>(a: seq<Block<T>>, b: seq<Block<T>>) {
    && a != [] && b != []
    && forall i, j :: 0 <= i < |a| && 0 <= j < |b| ==>
      (a[i].previous == b[j].previous <==> i == |a| - 1 && j == |b| - 1)
  }

  /** Numbers fall by one from block to block. */
  lemma {:induction false} BranchNumbers<T>(index: Index<T>, id: BlockId, br: seq<Block<T>>, k: nat)
    requires IsBranch(index, id, br) && k < |br|
    ensures br[k].Num() == id.num - k
  {
    if k > 0 {
      BranchNumbers(index, id, br, k - 1);
    }
  }

  /** Parents are unique, so branches from one block agree. */
  lemma {:induction false} BranchesAgree<T>(index: Index<T>, id: BlockId, a: seq<Block<T>>, b: seq<Block<T>>, k: nat)
    requires IsBranch(index, id, a) && IsBranch(index, id, b) && k < |a| && k < |b|
    ensures a[k] == b[k]
  {
    if k > 0 {
      BranchesAgree(index, id, a, b, k - 1);
      assert a[k - 1].previous == a[k].Id() && b[k - 1].previous == b[k].Id();
    }
  }

  lemma LastDiffer<T>(index: Index<T>, first: BlockId, second: BlockId, a: seq<Block<T>>, b: seq<Block<T>>)
    requires IsBranch(index, first, a) && IsBranch(index, second, b) && Meet(a, b) && |a| > 1 && |b| > 1
    ensures a[|a| - 1] != b[|b| - 1]
  {
    assert a[|a| - 2].previous != b[|b| - 2].previous;
  }

  /** The last blocks coincide exactly when one of the two tips is an ancestor of the other, or is the other. */
  lemma MeetAtTip<T>(index: Index<T>, first: BlockId, second: BlockId, a: seq<Block<T>>, b: seq<Block<T>>)
    requires IsBranch(index, first, a) && IsBranch(index, second, b) && Meet(a, b)
    ensures a[|a| - 1] == b[|b| - 1] <==> (exists j :: 0 <= j < |b| && b[j].Id() == first) || (exists i :: 0 <= i < |a| && a[i].Id() == second)
  {
    if a[|a| - 1] == b[|b| - 1] {
      if |a| > 1 && |b| > 1 {
        LastDiffer(index, first, second, a, b);
      } else if |a| == 1 {
        assert b[|b| - 1].Id() == first;
      } else {
        assert a[|a| - 1].Id() == second;
      }
    }
    if j :| 0 <= j < |b| && b[j].Id() == first {
      assert index[first] == b[j] == a[0];
    }
    if i :| 0 <= i < |a| && a[i].Id() == second {
      assert index[second] == a[i] == b[0];
    }
  }

  /** Above the meeting point the branches have no block in common. */
  lemma DisjointAbove<T>(a: seq<Block<T>>, b: seq<Block<T>>, i: nat, j: nat)
    requires Meet(a, b) && i < |a| && j < |b| && (i < |a| - 1 || j < |b| - 1)
    ensures a[i] != b[j]
  {}

  /** The search has reached the bottom of the first branch, and has found no place where they meet. */
  ghost predicate Exhausted<T>(index: Index<T>, first: BlockId, second: BlockId, a: seq<Block<T>>, b: seq<Block<T>>) {
    && IsBranch(index, first, a) && a[|a| - 1].previous !in index
    && second in index && (b == [] || IsBranch(index, second, b))
    && (if b == [] then a[|a| - 1].Num() > second.num else b[|b| - 1].Num() <= a[|a| - 1].Num())
    && (forall i, j :: 0 <= i < |a| && 0 <= j < |b| ==> a[i].previous != b[j].previous)
  }

  /** The branches the search has collected cannot meet: no pair of them shares a parent, and one
      of the two chains ends here. */
  lemma NeverMeet<T>(index: Index<T>, first: BlockId, second: BlockId, a: seq<Block<T>>, b: seq<Block<T>>,
                     a': seq<Block<T>>, b': seq<Block<T>>)
    requires Exhausted(index, first, second, a, b)
    requires IsBranch(index, first, a') && IsBranch(index, second, b')
    ensures a'[|a'| - 1].previous != b'[|b'| - 1].previous
  {
    var x, y := a'[|a'| - 1], b'[|b'| - 1];
    if |a'| > |a| {
      assert a'[|a| - 1].previous == a'[|a|].Id() && a'[|a|].Id() in index;
      BranchesAgree(index, first, a, a', |a| - 1);
      assert false;
    }
    BranchesAgree(index, first, a, a', |a'| - 1);
    BranchNumbers(index, first, a, |a'| - 1);
    BranchNumbers(index, first, a, |a| - 1);
    BranchNumbers(index, second, b', |b'| - 1);
    if x.previous == y.previous {
      assert x.Num() == y.Num();
      assert b != [];
      BranchNumbers(index, second, b, |b| - 1);
      BranchesAgree(index, second, b, b', |b'| - 1);
    }
  }

  /** No two branches from the blocks have last blocks with a common parent. */
  ghost predicate NeverJoined<T(!new)>(index: Index<T>, first: BlockId, second: BlockId) {
    forall a: seq<Block<T>>, b: seq<Block<T>> :: IsBranch(index, first, a) && IsBranch(index, second, b) ==>
      a[|a| - 1].previous != b[|b| - 1].previous
  }

  lemma NoneMeet<T(!new)>(index: Index<T>, first: BlockId, second: BlockId, a: seq<Block<T>>, b: seq<Block<T>>)
    requires Exhausted(index, first, second, a, b)
    ensures NeverJoined(index, first, second) && NeverJoined(index, second, first)
  {
    forall a': seq<Block<T>>, b': seq<Block<T>> | IsBranch(index, first, a') && IsBranch(index, second, b') {
      NeverMeet(index, first, second, a, b, a', b');
    }
  }

  /** The branches leading back from two blocks to the most recent block below both; None when
      a block is unknown or the index does not reach far enough back. */
  method FetchBranchFrom<T(!new)>(index: Index<T>, first: BlockId, second: BlockId)
    returns (r: Option<(seq<Block<T>>, seq<Block<T>>)>)
    requires Keyed(index)
    ensures r.Some? ==> IsBranch(index, first, r.value.0) && IsBranch(index, second, r.value.1)
                        && Meet(r.value.0, r.value.1)
    ensures r.None? <==> NeverJoined(index, first, second)
  {
    if first !in index || second !in index {
      return None;
    }
    var x, y := index[first], index[second];
    var a: seq<Block<T>>, b: seq<Block<T>> := [], [];
    while x.Num() > y.Num()
      invariant IsBranch(index, first, a + [x])
      invariant x.Num() >= y.Num() || a == []
    {
      a := a + [x];
      if x.previous !in index {
        NoneMeet(index, first, second, a, b);
        return None;
      }
      x := index[x.previous];
    }
    while y.Num() > x.Num()
      invariant IsBranch(index, second, b + [y])
      invariant y.Num() >= x.Num()
      invariant b == [] || a == []
    {
      b := b + [y];
      if y.previous !in index {
        NoneMeet(index, second, first, b, a);
        return None;
      }
      y := index[y.previous];
    }
    r := DescendTogether(index, first, second, a, b, x, y);
  }

  /** From two blocks of one height down to a common parent. */
  method DescendTogether<T(!new)>(index: Index<T>, first: BlockId, second: BlockId, a0: seq<Block<T>>, b0: seq<Block<T>>,
                                  x0: Block<T>, y0: Block<T>)
    returns (r: Option<(seq<Block<T>>, seq<Block<T>>)>)
    requires Keyed(index) && x0.Num() == y0.Num() && (a0 == [] || b0 == [])
    requires IsBranch(index, first, a0 + [x0]) && IsBranch(index, second, b0 + [y0])
    ensures r.Some? ==> IsBranch(index, first, r.value.0) && IsBranch(index, second, r.value.1)
                        && Meet(r.value.0, r.value.1)
    ensures r.None? <==> NeverJoined(index, first, second)
  {
    var a, b, x, y := a0, b0, x0, y0;
    while x.previous != y.previous
      invariant IsBranch(index, first, a + [x]) && IsBranch(index, second, b + [y])
      invariant x.Num() == y.Num()
      invariant forall i, j :: 0 <= i < |a| && 0 <= j < |b| ==> a[i].previous != b[j].previous
      decreases x.Num()
    {
      Apart(index, first, second, a, b, x, y);
      a, b := a + [x], b + [y];
      if x.previous !in index {
        NoneMeet(index, first, second, a, b);
        return None;
      }
      if y.previous !in index {
        NoneMeet(index, second, first, b, a);
        return None;
      }
      x, y := index[x.previous], index[y.previous];
    }
    Joined(index, first, second, a, b, x, y);
    return Some((a + [x], b + [y]));
  }

  /** Blocks of different height have different parents. */
  lemma Apart<T>(index: Index<T>, first: BlockId, second: BlockId, a: seq<Block<T>>, b: seq<Block<T>>, x: Block<T>, y: Block<T>)
    requires IsBranch(index, first, a + [x]) && IsBranch(index, second, b + [y]) && x.Num() == y.Num()
    ensures forall i :: 0 <= i < |a| ==> a[i].previous != y.previous
    ensures forall j :: 0 <= j < |b| ==> b[j].previous != x.previous
  {
    BranchNumbers(index, first, a + [x], |a|);
    BranchNumbers(index, second, b + [y], |b|);
    forall i | 0 <= i < |a| ensures a[i].previous != y.previous { BranchNumbers(index, first, a + [x], i); assert (a + [x])[i] == a[i]; }
    forall j | 0 <= j < |b| ensures b[j].previous != x.previous { BranchNumbers(index, second, b + [y], j); assert (b + [y])[j] == b[j]; }
  }

  lemma Joined<T>(index: Index<T>, first: BlockId, second: BlockId, a: seq<Block<T>>, b: seq<Block<T>>, x: Block<T>, y: Block<T>)
    requires IsBranch(index, first, a + [x]) && IsBranch(index, second, b + [y])
    requires x.previous == y.previous
    requires forall i, j :: 0 <= i < |a| && 0 <= j < |b| ==> a[i].previous != b[j].previous
    ensures Meet(a + [x], b + [y])
  {
    Apart(index, first, second, a, b, x, y);
  }

  // ----- the tree itself --------------------------------------------------------------

  datatype Forks<T> = Forks(index: Index<T>, head: Option<Block<T>>, maxSize: nat)

  function Floor(num: nat, size: nat): nat {
    if num > size then num - size else 0
  }

  function Above<T>(index: Index<T>, floor: nat): Index<T> {
    map id | id in index && index[id].Num() >= floor :: index[id]
  }

  /** Too old for the cache, or not linked to a known block. */
  predicate Acceptable<T>(f: Forks<T>, b: Block<T>) {
    f.head.Some? ==>
      && b.Num() > Floor(f.head.value.Num(), f.maxSize)
      && (b.previous == NO_BLOCK || b.previous in f.index)
  }

  /** The head moves only to a higher block, and then what is too low is dropped. */
  function Pushed<T>(f: Forks<T>, b: Block<T>): Forks<T>
    requires Acceptable(f, b)
  {
    var index := if b.Id() in f.index then f.index else f.index[b.Id() := b];
    if f.head.None? then f.(index := index, head := Some(b))
    else if b.Num() > f.head.value.Num() then
      f.(index := Above(index, Floor(b.Num(), f.maxSize)), head := Some(b))
    else f.(index := index)
  }

  /** The head after a push: the block itself when it is higher than the head, or the first. */
  function Top<T>(f: Forks<T>, b: Block<T>): Block<T> {
    if f.head.Some? && f.head.value.Num() >= b.Num() then f.head.value else b
  }

  /** A pushed block is known afterwards, and the blocks dropped are those more than maxSize below a new head. */
  lemma PushedTree<T>(f: Forks<T>, b: Block<T>)
    requires Acceptable(f, b) && Keyed(f.index)
    ensures var f' := Pushed(f, b);
      && f'.head == Some(Top(f, b)) && f'.maxSize == f.maxSize && Keyed(f'.index)
      && b.Id() in f'.index
      && (forall id :: id in f'.index ==> f'.index[id] == (if id in f.index then f.index[id] else b))
      && (forall id :: id in f.index && id !in f'.index <==>
            id in f.index && f.head.Some? && b.Num() > f.head.value.Num() && f.index[id].Num() + f.maxSize < b.Num())
  {
    assert b.Id() in f.index ==> f.index[b.Id()].Num() == b.Num();
  }

  /** After a new limit the blocks within it of the head are left, and none when there is no head to count from. */
  lemma WithinLimit<T>(f: Forks<T>, size: nat)
    ensures var f' := WithMaxSize(f, size);
      && f'.head == f.head && f'.maxSize == size
      && (forall id :: id in f'.index <==> id in f.index && (f.head.Some? ==> f.index[id].Num() + size >= f.head.value.Num()))
      && (forall id :: id in f'.index ==> f'.index[id] == f.index[id])
  {}

  function WithMaxSize<T>(f: Forks<T>, size: nat): Forks<T> {
    if f.head.None? then f.(maxSize := size)
    else f.(maxSize := size, index := Above(f.index, Floor(f.head.value.Num(), size)))
  }

  class Tree<T> {
    var index: Index<T>
    var head: Option<Block<T>>
    var maxSize: nat

    ghost function State(): Forks<T>
      reads this
    {
      Forks(index, head, maxSize)
    }

    ghost predicate Valid()
      reads this
    {
      Keyed(index)
    }

    constructor ()
      ensures Valid() && State() == Forks(map[], None, 1024)
    {
      index, head, maxSize := map[], None, 1024;
    }

    /** Drops the blocks below a height, lowest first. */
    method EraseBelow(floor: nat)
      requires Valid()
      modifies this`index
      ensures Valid() && index == Above(old(index), floor)
    {
      while exists id :: id in index && index[id].Num() < floor
        invariant Valid()
        invariant Above(index, floor) == Above(old(index), floor)
        decreases index.Keys
        modifies this`index
      {
        var id :| id in index && index[id].Num() < floor;
        index := index - {id};
      }
      assert Above(index, floor) == index;
    }

    method PushBlock(b: Block<T>) returns (ok: bool)
      requires Valid()
      modifies this
      ensures Valid() && (ok <==> Acceptable(old(State()), b))
      ensures State() == if ok then Pushed(old(State()), b) else old(State())
    {
      if head.Some? {
        var floor := Floor(head.value.Num(), maxSize);
        if b.Num() <= floor {
          return false;
        }
        if b.previous != NO_BLOCK && b.previous !in index {
          return false;
        }
      }
      if b.Id() !in index {
        index := index[b.Id() := b];
      }
      if head.None? {
        head := Some(b);
      } else if b.Num() > head.value.Num() {
        head := Some(b);
        EraseBelow(Floor(b.Num(), maxSize));
      }
      return true;
    }

    method SetMaxSize(size: nat)
      requires Valid()
      modifies this
      ensures Valid() && State() == WithMaxSize(old(State()), size)
    {
      maxSize := size;
      if head.Some? {
        EraseBelow(Floor(head.value.Num(), size));
      }
    }

    method Remove(id: BlockId)
      requires Valid()
      modifies this`index
      ensures Valid() && index == old(index) - {id}
    {
      index := index - {id};
    }

    method SetHead(b: Block<T>)
      requires Valid()
      modifies this`head
      ensures Valid() && head == Some(b)
    {
      head := Some(b);
    }
  }
}
