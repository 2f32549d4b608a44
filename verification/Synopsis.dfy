/** Summaries of a chain that a node sends to its peers, and the peers' answers. */
module Synopsis {
  import opened Wrappers
  import opened Arithmetic
  import opened Constants
  import opened ForkDatabase

  /** Block n of a chain is at place n - 1. */
  predicate Numbered(chain: seq<BlockId>) {
    forall i :: 0 <= i < |chain| ==> chain[i].num == i + 1
  }

  // ----- which blocks are named ------------------------------------------------------------------

  function Next(low: nat, top: nat): nat
    requires low <= top
  {
    low + (top - low + 2) / 2
  }

  /** The numbers of the blocks named, from low to at most high, as if the chain went on up to top. */
  function Points(low: nat, high: nat, top: nat): (s: seq<nat>)
    requires low <= high <= top
    ensures |s| > 0 && s[0] == low
    decreases high - low
  {
    if Next(low, top) <= high then [low] + Points(Next(low, top), high, top) else [low]
  }

  /** Strictly increasing within bounds. */
  predicate Increasing(s: seq<nat>, low: nat, high: nat) {
    && (forall i :: 0 <= i < |s| ==> low <= s[i] <= high)
    && (forall i, j :: 0 <= i < j < |s| ==> s[i] < s[j])
  }

  lemma {:induction false} PointsIncrease(low: nat, high: nat, top: nat)
    requires low <= high <= top
    ensures Increasing(Points(low, high, top), low, high)
    decreases high - low
  {
    var next := Next(low, top);
    if next <= high {
      PointsIncrease(next, high, top);
      Prepended(low, next, high, Points(next, high, top));
    }
  }

  lemma Prepended(low: nat, next: nat, high: nat, rest: seq<nat>)
    requires low < next <= high && Increasing(rest, next, high)
    ensures Increasing([low] + rest, low, high)
  {}

  /** When nothing follows the reference block, the last block named is that block. */
  lemma {:induction false} PointsEnd(low: nat, high: nat)
    requires low <= high
    ensures var s := Points(low, high, high); s[|s| - 1] == high
    decreases high - low
  {
    if Next(low, high) <= high { PointsEnd(Next(low, high), high); }
  }

  /** Floor of the binary logarithm. */
  function Log2(n: nat): nat
    requires n > 0
  {
    if n == 1 then 0 else 1 + Log2(n / 2)
  }

  /** Logarithmically many, exactly so when nothing follows. */
  lemma {:induction false} PointsCount(low: nat, high: nat, top: nat)
    requires low <= high <= top
    ensures |Points(low, high, top)| <= Log2(top - low + 1) + 1
    ensures high == top ==> |Points(low, high, top)| == Log2(top - low + 1) + 1
    decreases high - low
  {
    var next := Next(low, top);
    if next <= high {
      PointsCount(next, high, top);
      assert top - next + 1 == (top - low + 1) / 2;
    }
  }

  function Pow2(i: nat): (p: nat)
    ensures p > 0
  {
    if i == 0 then 1 else 2 * Pow2(i - 1)
  }

  /** Each point halves, rounding down, what there is from it up to the top; and the points are all there are at or
      below high. */
  lemma {:induction false} PointAt(low: nat, high: nat, top: nat, i: nat)
    requires low <= high <= top
    ensures var s, n := Points(low, high, top), top - low + 1;
      && (i < |s| ==> low <= s[i] <= high && IsFloor(top + 1 - s[i], n, Pow2(i)))
      && (i < |s| <==> (top + 1 - high) * Pow2(i) <= n)
    decreases i
  {
    PointsIncrease(low, high, top);
    if i > 0 {
      var next, x := Next(low, top), (top + 1 - high) * Pow2(i - 1);
      assert (top + 1 - high) * Pow2(i) == 2 * x;
      if next <= high {
        PointAt(next, high, top, i - 1);
        var s := Points(next, high, top);
        if i - 1 < |s| { TwiceFloor(top + 1 - s[i - 1], Pow2(i - 1), (top - low + 1) / 2, top - low + 1, Pow2(i)); }
      } else {
        MulLess(1, Pow2(i - 1), top + 1 - high);
      }
    }
  }

  lemma TwiceFloor(q: nat, p: nat, h: nat, n: nat, d: nat)
    requires IsFloor(q, h, p) && 2 * h <= n <= 2 * h + 1 && d == 2 * p
    ensures IsFloor(q, n, d)
  {
    assert q * d == 2 * (q * p) && (q + 1) * d == 2 * ((q + 1) * p);
  }

  /** The best point at or below a number: the gap up to the number is less than half of what is above the point. */
  function Best(low: nat, top: nat, c: nat): (b: nat)
    requires low <= c <= top
    ensures low <= b <= c && c < Next(b, top)
    decreases c - low
  {
    if Next(low, top) <= c then Best(Next(low, top), top, c) else low
  }

  lemma {:induction false} BestIsPoint(low: nat, high: nat, top: nat, c: nat) returns (i: nat)
    requires low <= c && low <= high <= top && c <= top
    ensures var s := Points(low, high, top);
      && i < |s| && s[i] <= c && (i + 1 < |s| ==> c < s[i + 1])
      && (c <= high ==> s[i] == Best(low, top, c))
    decreases high - low
  {
    var s := Points(low, high, top);
    var next := Next(low, top);
    if next <= high && next <= c {
      var j := BestIsPoint(next, high, top, c);
      i := j + 1;
      assert s == [low] + Points(next, high, top);
      assert s[i] == Points(next, high, top)[j];
    } else {
      i := 0;
      if next <= high { assert s[1] == Points(next, high, top)[0]; }
    }
  }

  // ----- what the summary covers ----------------------------------------------------------------------

  /** Up to the head; up to a block of the main chain; or up to the first of a run of blocks on a fork,
      newest first, that ends with the block of the main chain it leaves from. */
  datatype Reference = Head | Main(num: nat) | Fork(history: seq<BlockId>)

  predicate ForkOk(history: seq<BlockId>) {
    |history| >= 2 && forall i :: 0 <= i < |history| ==> history[i].num + i == history[0].num
  }

  function Reverse<T>(s: seq<T>): (r: seq<T>)
    ensures |r| == |s| && forall i :: 0 <= i < |s| ==> r[i] == s[|s| - 1 - i]
  {
    if s == [] then [] else Reverse(s[1..]) + [s[0]]
  }

  /** From the first block named to the last, and where the fork begins. */
  datatype Span = Span(low: nat, shared: nat, high: nat, fork: seq<BlockId>)

  datatype Plan = Empty | TooOld | Cover(span: Span)

  /** The block before the first that can be undone, in unsigned 32-bit arithmetic. */
  function LastNonUndoable(head: nat, undoSize: nat): nat {
    (head - undoSize) % TWO_TO_THE_32
  }

  function AtLeastOne(n: nat): nat {
    if n == 0 then 1 else n
  }

  function MakePlan(head: nat, undoSize: nat, reference: Reference): Plan
    requires reference.Fork? ==> ForkOk(reference.history)
  {
    var low := LastNonUndoable(head, undoSize);
    match reference
    case Head => if head == 0 then Empty else Cover(Span(AtLeastOne(low), head, head, []))
    case Main(num) => Cover(Span(AtLeastOne(if num < low then num else low), num, num, []))
    case Fork(history) =>
      var fork := Reverse(history[..|history| - 1]);
      var shared := history[|history| - 1].num;
      if shared < low then TooOld else Cover(Span(AtLeastOne(low), shared, shared + |fork|, fork))
  }

  /** From the first block above what can no longer be undone, or above it from the first, up to the reference block;
      nothing on a new chain, and nothing about a fork that leaves before what can be undone. */
  lemma PlanIs(head: nat, undoSize: nat, reference: Reference)
    requires reference.Fork? ==> ForkOk(reference.history)
    requires head < TWO_TO_THE_32 && undoSize < TWO_TO_THE_32
    ensures var p, first := MakePlan(head, undoSize, reference),
                            if undoSize <= head then head - undoSize else head + TWO_TO_THE_32 - undoSize;
      match reference
      case Head =>
        (p.Empty? <==> head == 0) && (head > 0 ==> p == Cover(Span(Max(1, first), head, head, [])))
      case Main(num) => p == Cover(Span(Max(1, Min(num, first)), num, num, []))
      case Fork(history) =>
        && (p.TooOld? <==> history[|history| - 1].num < first)
        && (!p.TooOld? ==> p.Cover? && p.span.low == Max(1, first) && p.span.high == history[0].num
                           && p.span.shared == history[|history| - 1].num && |p.span.fork| == |history| - 1
                           && forall i :: 0 <= i < |p.span.fork| ==> p.span.fork[i] == history[|history| - 2 - i])
  {
    if undoSize > head { ModUp(head - undoSize, TWO_TO_THE_32); }
  }

  /** There is something to name, and every block between can be looked up. */
  predicate InBounds(s: Span, chain: seq<BlockId>) {
    0 < s.low <= s.high && s.shared <= |chain| && s.high == s.shared + |s.fork|
  }

  function BlockAt(s: Span, chain: seq<BlockId>, n: nat): BlockId
    requires InBounds(s, chain) && s.low <= n <= s.high
  {
    if n <= s.shared then chain[n - 1] else s.fork[n - s.shared - 1]
  }

  /** A summary up to a reference block is always in bounds; one up to the head is exactly when there are no
      more undo states than blocks. */
  lemma InBoundsIff(chain: seq<BlockId>, undoSize: nat, reference: Reference)
    requires |chain| < TWO_TO_THE_32 && undoSize <= TWO_TO_THE_32 - 1
    requires reference.Main? ==> 0 < reference.num <= |chain|
    requires reference.Fork? ==> ForkOk(reference.history) && reference.history[|reference.history| - 1].num <= |chain|
    ensures var p := MakePlan(|chain|, undoSize, reference);
      p.Cover? ==> (InBounds(p.span, chain) <==> (reference.Head? ==> undoSize <= |chain|))
  {
    var head := |chain|;
    if undoSize > head {
      assert (head - undoSize) % TWO_TO_THE_32 == head - undoSize + TWO_TO_THE_32 by { ModUp(head - undoSize, TWO_TO_THE_32); }
    }
  }

  /** With one block and two undo states the first number to name is the largest there is. */
  lemma OutOfBoundsAtHead(id: BlockId)
    ensures var p := MakePlan(1, 2, Head);
      p == Cover(Span(TWO_TO_THE_32 - 1, 1, 1, [])) && !InBounds(p.span, [id])
  {
    ModUp(-1, TWO_TO_THE_32);
  }

  predicate NumberedFrom(fork: seq<BlockId>, shared: nat) {
    forall i :: 0 <= i < |fork| ==> fork[i].num == shared + 1 + i
  }

  /** The fork's blocks follow the block it leaves from. */
  lemma ForkFollows(head: nat, undoSize: nat, reference: Reference)
    requires reference.Fork? ==> ForkOk(reference.history)
    ensures var p := MakePlan(head, undoSize, reference); p.Cover? ==> NumberedFrom(p.span.fork, p.span.shared)
  {
    match reference
    case Fork(history) =>
      var n := |history| - 1;
      var newest := history[..n];
      var fork := Reverse(newest);
      forall i | 0 <= i < n ensures fork[i].num == history[n].num + 1 + i {
        assert fork[i] == history[n - 1 - i];
      }
    case _ =>
  }

  lemma NumberAt(s: Span, chain: seq<BlockId>, n: nat)
    requires InBounds(s, chain) && s.low <= n <= s.high && Numbered(chain) && NumberedFrom(s.fork, s.shared)
    ensures BlockAt(s, chain, n).num == n
  {}

  /** The blocks at the points, as far as they have been gathered. */
  predicate Names(s: Span, chain: seq<BlockId>, synopsis: seq<BlockId>, points: seq<nat>)
    requires InBounds(s, chain)
  {
    |synopsis| <= |points|
    && forall i :: 0 <= i < |synopsis| ==> s.low <= points[i] <= s.high && synopsis[i] == BlockAt(s, chain, points[i]) && synopsis[i].num == points[i]
  }

  lemma NamesMore(s: Span, chain: seq<BlockId>, synopsis: seq<BlockId>, points: seq<nat>, n: nat)
    requires InBounds(s, chain) && Numbered(chain) && NumberedFrom(s.fork, s.shared)
    requires Names(s, chain, synopsis, points) && |synopsis| < |points| && points[|synopsis|] == n && s.low <= n <= s.high
    ensures Names(s, chain, synopsis + [BlockAt(s, chain, n)], points)
  {
    NumberAt(s, chain, n);
  }

  /** What is still to be named after the first few. */
  predicate Rest(points: seq<nat>, n: nat, low: nat, high: nat, top: nat)
    requires low <= high ==> high <= top
  {
    n <= |points| && (if low <= high then points[n..] == Points(low, high, top) else n == |points|)
  }

  lemma RestMore(points: seq<nat>, n: nat, low: nat, high: nat, top: nat)
    requires low <= high <= top && Rest(points, n, low, high, top)
    ensures n < |points| && points[n] == low && Rest(points, n + 1, Next(low, top), high, top)
  {
    assert points[n] == points[n..][0];
    assert points[n + 1..] == points[n..][1..];
  }

  /** The summary the node sends: its loop runs at least once. */
  method Summarise(chain: seq<BlockId>, s: Span, after: nat) returns (synopsis: seq<BlockId>)
    requires InBounds(s, chain) && Numbered(chain) && NumberedFrom(s.fork, s.shared)
    ensures var points := Points(s.low, s.high, s.high + after);
      |synopsis| == |points| && Names(s, chain, synopsis, points)
  {
    var top := s.high + after;
    ghost var points := Points(s.low, s.high, top);
    var low := s.low;
    synopsis := [];
    assert points[0..] == points;
    var more := true;
    while more
      invariant s.low <= low && more == (low <= s.high)
      invariant Names(s, chain, synopsis, points) && Rest(points, |synopsis|, low, s.high, top)
      decreases s.high + 1 - low
    {
      RestMore(points, |synopsis|, low, s.high, top);
      NamesMore(s, chain, synopsis, points, low);
      synopsis := synopsis + [BlockAt(s, chain, low)];
      low := Next(low, top);
      more := low <= s.high;
    }
  }

  /** A reference the node knows: a block of its chain, or one of a fork that leaves from its chain. */
  predicate KnownTo(chain: seq<BlockId>, reference: Reference) {
    match reference
    case Head => true
    case Main(num) => 0 < num <= |chain|
    case Fork(history) => ForkOk(history) && history[|history| - 1].num <= |chain|
  }

  /** A summary as promised: blocks of the node's chain or the fork, at strictly increasing heights from the first
      that can be undone, logarithmically many, the last one the reference block if nothing follows it. */
  ghost predicate GoodSummary(chain: seq<BlockId>, s: Span, after: nat, synopsis: seq<BlockId>) {
    && InBounds(s, chain) && synopsis != [] && synopsis[0].num == s.low
    && (forall i :: 0 <= i < |synopsis| ==> s.low <= synopsis[i].num <= s.high && synopsis[i] == BlockAt(s, chain, synopsis[i].num))
    && (forall i, j :: 0 <= i < j < |synopsis| ==> synopsis[i].num < synopsis[j].num)
    && |synopsis| <= Log2(s.high + after - s.low + 1) + 1
    && (after == 0 ==> synopsis[|synopsis| - 1].num == s.high && |synopsis| == Log2(s.high - s.low + 1) + 1)
    && Halving(s, after, synopsis)
  }

  /** Each block named halves what there is from it up to the top, and no more than those can be named. */
  ghost predicate Halving(s: Span, after: nat, synopsis: seq<BlockId>) {
    s.low <= s.high &&
    var top, n := s.high + after, s.high + after - s.low + 1;
    forall i: nat ::
      && (i < |synopsis| ==> synopsis[i].num <= top && IsFloor(top + 1 - synopsis[i].num, n, Pow2(i)))
      && (i < |synopsis| <==> (after + 1) * Pow2(i) <= n)
  }

  lemma PointsAre(low: nat, high: nat, top: nat, points: seq<nat>)
    requires low <= high <= top && points == Points(low, high, top)
    ensures |points| > 0 && points[0] == low && Increasing(points, low, high) && |points| <= Log2(top - low + 1) + 1
    ensures high == top ==> points[|points| - 1] == high && |points| == Log2(high - low + 1) + 1
  {
    PointsIncrease(low, high, top);
    PointsCount(low, high, top);
    if high == top { PointsEnd(low, high); }
  }

  lemma SummaryIsGood(chain: seq<BlockId>, s: Span, after: nat, synopsis: seq<BlockId>, points: seq<nat>)
    requires InBounds(s, chain) && points == Points(s.low, s.high, s.high + after)
    requires |synopsis| == |points| && Names(s, chain, synopsis, points)
    ensures GoodSummary(chain, s, after, synopsis)
  {
    PointsAre(s.low, s.high, s.high + after, points);
    PointsHalve(chain, s, after, synopsis, points);
    NamedIsGood(chain, s, after, synopsis, points);
  }

  lemma PointsHalve(chain: seq<BlockId>, s: Span, after: nat, synopsis: seq<BlockId>, points: seq<nat>)
    requires InBounds(s, chain) && points == Points(s.low, s.high, s.high + after)
    requires |synopsis| == |points| && Names(s, chain, synopsis, points)
    ensures Halving(s, after, synopsis)
  {
    var top, n := s.high + after, s.high + after - s.low + 1;
    forall i: nat
      ensures i < |synopsis| ==> synopsis[i].num <= top && IsFloor(top + 1 - synopsis[i].num, n, Pow2(i))
      ensures i < |synopsis| <==> (after + 1) * Pow2(i) <= n
    {
      PointAt(s.low, s.high, top, i);
    }
  }

  lemma NamedIsGood(chain: seq<BlockId>, s: Span, after: nat, synopsis: seq<BlockId>, points: seq<nat>)
    requires InBounds(s, chain) && |synopsis| == |points| > 0 && Names(s, chain, synopsis, points)
    requires points[0] == s.low && Increasing(points, s.low, s.high) && |points| <= Log2(s.high + after - s.low + 1) + 1
    requires after == 0 ==> points[|points| - 1] == s.high && |points| == Log2(s.high - s.low + 1) + 1
    requires Halving(s, after, synopsis)
    ensures GoodSummary(chain, s, after, synopsis)
  {}

  /** The whole of it; None when the fork left too long ago. A summary up to the head needs that there are no more
      undo states than blocks. */
  method GetSynopsis(chain: seq<BlockId>, undoSize: nat, reference: Reference, after: nat) returns (r: Option<seq<BlockId>>)
    requires Numbered(chain) && |chain| < TWO_TO_THE_32 && undoSize < TWO_TO_THE_32 && KnownTo(chain, reference)
    requires reference.Head? ==> undoSize <= |chain|
    ensures match MakePlan(|chain|, undoSize, reference)
      case Empty => r == Some([])
      case TooOld => r.None?
      case Cover(s) => r.Some? && GoodSummary(chain, s, after, r.value)
  {
    match MakePlan(|chain|, undoSize, reference)
    case Empty => r := Some([]);
    case TooOld => r := None;
    case Cover(s) =>
      InBoundsIff(chain, undoSize, reference);
      ForkFollows(|chain|, undoSize, reference);
      var synopsis := Summarise(chain, s, after);
      SummaryIsGood(chain, s, after, synopsis, Points(s.low, s.high, s.high + after));
      r := Some(synopsis);
  }

  // ----- the answer -----------------------------------------------------------------------------------

  predicate Known(chain: seq<BlockId>, id: BlockId) {
    0 < id.num <= |chain| && chain[id.num - 1] == id
  }

  /** The highest entry the peer shares, from the end; nothing when the chains have nothing in common. */
  function Shared(chain: seq<BlockId>, synopsis: seq<BlockId>): (r: Option<BlockId>)
    ensures r.Some? ==> r.value in synopsis && (r.value == NO_BLOCK || Known(chain, r.value))
  {
    if synopsis == [] then None
    else
      var last := synopsis[|synopsis| - 1];
      if last == NO_BLOCK || Known(chain, last) then Some(last) else Shared(chain, synopsis[..|synopsis| - 1])
  }

  /** A run of at most limit ids of the peer's chain from a block on: that block is the first of them. */
  function RunFrom(chain: seq<BlockId>, num: nat, limit: nat): seq<BlockId>
    requires num <= |chain| + 1
  {
    var first := AtLeastOne(num);
    if first > |chain| then [] else chain[first - 1..Min(first - 1 + limit, |chain|)]
  }

  /** The number of the block the answer starts from; None when the peer is on a fork that cannot be reached. */
  method FindShared(chain: seq<BlockId>, synopsis: seq<BlockId>) returns (from: Option<nat>)
    requires Numbered(chain)
    ensures from.Some? <==> synopsis == [] || Shared(chain, synopsis).Some?
    ensures from.Some? ==> from.value <= |chain| && from.value == if synopsis == [] then 0 else Shared(chain, synopsis).value.num
  {
    if synopsis == [] || synopsis == [NO_BLOCK] { return Some(0); }
    var i := |synopsis|;
    assert synopsis[..i] == synopsis;
    while i > 0
      invariant 0 <= i <= |synopsis|
      invariant Shared(chain, synopsis) == Shared(chain, synopsis[..i])
    {
      i := i - 1;
      var id := synopsis[i];
      assert synopsis[..i + 1][..i] == synopsis[..i];
      if id == NO_BLOCK || Known(chain, id) { return Some(id.num); }
    }
    from := None;
  }

  /** A run of the chain's ids, number after number. */
  method Collect(chain: seq<BlockId>, from: nat, limit: nat) returns (ids: seq<BlockId>)
    requires chain != [] && from <= |chain|
    ensures ids == RunFrom(chain, from, limit)
  {
    ids := [];
    ghost var first := AtLeastOne(from);
    var num := from;
    while num <= |chain| && |ids| < limit
      invariant from <= num <= |chain| + 1
      invariant ids == if num <= first then [] else chain[first - 1..num - 1]
      invariant |ids| <= limit
    {
      if num > 0 {
        assert chain[first - 1..num] == (if num == first then [] else chain[first - 1..num - 1]) + [chain[num - 1]];
        ids := ids + [chain[num - 1]];
      }
      num := num + 1;
    }
  }

  /** The peer's answer, and how many blocks it has beyond it. */
  method BlockIds(chain: seq<BlockId>, synopsis: seq<BlockId>, limit: nat) returns (ok: bool, ids: seq<BlockId>, remaining: nat)
    requires Numbered(chain)
    ensures chain == [] ==> ok && ids == [] && remaining == 0
    ensures chain != [] ==> (ok <==> synopsis == [] || Shared(chain, synopsis).Some?)
    ensures ok && chain != [] ==>
      var from := if synopsis == [] then 0 else Shared(chain, synopsis).value.num;
      && from <= |chain|
      && ids == RunFrom(chain, from, limit)
      && (ids != [] && synopsis != [] ==> (ids[0] == Shared(chain, synopsis).value <==> from > 0))
      && remaining == if ids == [] then 0 else |chain| - ids[|ids| - 1].num
  {
    ok, ids, remaining := true, [], 0;
    if chain == [] { return; }
    var from := FindShared(chain, synopsis);
    if from.None? { return false, [], 0; }
    ids := Collect(chain, from.value, limit);
    if ids != [] {
      assert ids[0] == chain[AtLeastOne(from.value) - 1];
      assert ids[|ids| - 1] in chain;
      remaining := |chain| - ids[|ids| - 1].num;
    }
  }

  // ----- together -------------------------------------------------------------------------------------

  /** The two chains have the blocks up to c in common, and no others. */
  predicate CommonUpTo(mine: seq<BlockId>, theirs: seq<BlockId>, c: nat) {
    && c <= |mine| && c <= |theirs|
    && forall i :: 0 <= i < |mine| && i < |theirs| ==> (mine[i] == theirs[i] <==> i < c)
  }

  /** A summary of a chain, as far as a peer's chain is concerned. */
  predicate SummaryOf(mine: seq<BlockId>, synopsis: seq<BlockId>, points: seq<nat>) {
    && |synopsis| == |points|
    && forall i :: 0 <= i < |points| ==> 0 < points[i] <= |mine| && synopsis[i] == mine[points[i] - 1]
  }

  lemma SharedEntry(mine: seq<BlockId>, theirs: seq<BlockId>, c: nat, n: nat)
    requires Numbered(mine) && CommonUpTo(mine, theirs, c) && 0 < n <= |mine|
    ensures mine[n - 1] != NO_BLOCK && (Known(theirs, mine[n - 1]) <==> n <= c)
  {
    assert mine[n - 1].num == n;
  }

  lemma SharedOnce(theirs: seq<BlockId>, synopsis: seq<BlockId>)
    requires synopsis != [] && synopsis[|synopsis| - 1] != NO_BLOCK
    ensures var n := |synopsis| - 1;
      Shared(theirs, synopsis) == if Known(theirs, synopsis[n]) then Some(synopsis[n]) else Shared(theirs, synopsis[..n])
  {}

  /** The peer recognises exactly the entries up to the last common block, so it finds the highest of them. */
  lemma {:induction false} SharedIsBest(mine: seq<BlockId>, theirs: seq<BlockId>, c: nat, synopsis: seq<BlockId>, points: seq<nat>, i: nat)
    requires Numbered(mine) && CommonUpTo(mine, theirs, c) && SummaryOf(mine, synopsis, points)
    requires i < |points| && points[i] <= c && forall j :: i < j < |points| ==> points[j] > c
    ensures Shared(theirs, synopsis) == Some(mine[points[i] - 1])
    decreases |points|
  {
    var last := |points| - 1;
    assert synopsis[last] == mine[points[last] - 1];
    SharedEntry(mine, theirs, c, points[last]);
    SharedOnce(theirs, synopsis);
    if i < last {
      SharedIsBest(mine, theirs, c, synopsis[..last], points[..last], i);
    }
  }

  /** The chain a summary is of: the node's own up to the fork, and the blocks of the fork. */
  function Summarised(s: Span, chain: seq<BlockId>): (mine: seq<BlockId>)
    requires InBounds(s, chain)
    ensures |mine| == s.high
  {
    chain[..s.shared] + s.fork
  }

  lemma NamesItsChain(s: Span, chain: seq<BlockId>, synopsis: seq<BlockId>, points: seq<nat>)
    requires InBounds(s, chain) && Numbered(chain) && NumberedFrom(s.fork, s.shared)
    requires Names(s, chain, synopsis, points) && |synopsis| == |points|
    ensures Numbered(Summarised(s, chain)) && SummaryOf(Summarised(s, chain), synopsis, points)
  {
    var mine := Summarised(s, chain);
    forall i | 0 <= i < |mine| ensures mine[i].num == i + 1 {
      if i >= s.shared { assert mine[i] == s.fork[i - s.shared]; }
    }
    forall i | 0 <= i < |points| ensures synopsis[i] == mine[points[i] - 1] {
      assert synopsis[i] == BlockAt(s, chain, points[i]);
    }
  }

  /** Whatever the summarised chain and the peer's look like, on a fork or not, as long as they part no earlier
      than the node can undo: the answer starts at a common block, and reaches past the last common block if
      there is room for half of what lies above its start, blocks that follow included. */
  lemma AnswerHelps(s: Span, chain: seq<BlockId>, synopsis: seq<BlockId>, after: nat, theirs: seq<BlockId>, c: nat, limit: nat)
    requires InBounds(s, chain) && Numbered(chain) && NumberedFrom(s.fork, s.shared) && Numbered(theirs)
    requires var points := Points(s.low, s.high, s.high + after);
      |synopsis| == |points| && Names(s, chain, synopsis, points)
    requires CommonUpTo(Summarised(s, chain), theirs, c) && s.low <= c
    ensures var top := s.high + after;
      var start := Best(s.low, top, c);
      && Shared(theirs, synopsis) == Some(Summarised(s, chain)[start - 1])
      && (c < |theirs| && limit >= (top - start + 2) / 2 + 1 ==> theirs[c] in RunFrom(theirs, start, limit))
  {
    NamesItsChain(s, chain, synopsis, Points(s.low, s.high, s.high + after));
    AnswerFor(Summarised(s, chain), s.low, s.high, s.high + after, theirs, c, synopsis, limit);
  }

  /** The same for any chain and any summary of it. */
  lemma AnswerFor(mine: seq<BlockId>, low: nat, high: nat, top: nat, theirs: seq<BlockId>, c: nat, synopsis: seq<BlockId>, limit: nat)
    requires Numbered(mine) && CommonUpTo(mine, theirs, c) && |mine| == high
    requires 0 < low <= c && low <= high <= top && SummaryOf(mine, synopsis, Points(low, high, top))
    ensures c <= top
    ensures var start := Best(low, top, c);
      && 0 < start <= |mine| && Shared(theirs, synopsis) == Some(mine[start - 1])
      && (c < |theirs| && limit >= (top - start + 2) / 2 + 1 ==> theirs[c] in RunFrom(theirs, start, limit))
  {
    SharedIsBestPoint(mine, low, high, top, theirs, c, synopsis);
    BestReaches(low, top, theirs, c, limit);
  }

  /** Less than half of what is above the best point lies below the last common block. */
  lemma BestReaches(low: nat, top: nat, chain: seq<BlockId>, c: nat, limit: nat)
    requires 0 < low <= c <= top && c <= |chain|
    ensures var start := Best(low, top, c);
      c < |chain| && limit >= (top - start + 2) / 2 + 1 ==> chain[c] in RunFrom(chain, start, limit)
  {
    var start := Best(low, top, c);
    if c < |chain| && limit >= (top - start + 2) / 2 + 1 { InRun(chain, start, limit, c); }
  }

  /** The highest entry the peer shares is the best point at or below the last common block. */
  lemma SharedIsBestPoint(mine: seq<BlockId>, low: nat, high: nat, top: nat, theirs: seq<BlockId>, c: nat, synopsis: seq<BlockId>)
    requires Numbered(mine) && CommonUpTo(mine, theirs, c) && |mine| == high
    requires 0 < low <= c && low <= high <= top && SummaryOf(mine, synopsis, Points(low, high, top))
    ensures 0 < Best(low, top, c) <= |mine| && Shared(theirs, synopsis) == Some(mine[Best(low, top, c) - 1])
  {
    var points := Points(low, high, top);
    var i := BestIsPoint(low, high, top, c);
    PointsIncrease(low, high, top);
    assert forall j :: i < j < |points| ==> points[i + 1] <= points[j];
    SharedIsBest(mine, theirs, c, synopsis, points, i);
  }

  lemma InRun(chain: seq<BlockId>, num: nat, limit: nat, i: nat)
    requires 0 < num <= i + 1 && i < |chain| && i - (num - 1) < limit
    ensures num <= |chain| + 1 && chain[i] in RunFrom(chain, num, limit)
  {
    assert RunFrom(chain, num, limit)[i - (num - 1)] == chain[i];
  }
}
