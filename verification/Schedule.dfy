/** Slots of time, and which witness signs in which. */
module Schedule {
  import opened Arithmetic

  type Witness = nat

  // ----- slots and times ----------------------------------------------------------------------

  /** What slots are counted from: the time and number of the head block, the block interval, and the slots
      skipped after a maintenance block (zero after any other). */
  datatype Clock = Clock(head: nat, time: nat, interval: nat, skip: nat)

  /** The start of the slot the head block is in; the first block comes an interval after genesis. */
  function Base(c: Clock): nat
    requires c.interval > 0
  {
    if c.head == 0 then c.time else c.time / c.interval * c.interval
  }

  function Skipped(c: Clock): nat {
    if c.head == 0 then 0 else c.skip
  }

  function SlotTime(c: Clock, slot: nat): nat
    requires c.interval > 0
  {
    if slot == 0 then 0 else Base(c) + (slot + Skipped(c)) * c.interval
  }

  /** Slots follow each other at the interval: from genesis at first, and then from the last multiple of the interval
      that the head block has reached, with the skipped slots in between. */
  lemma SlotTimeIs(c: Clock, slot: nat) returns (k: nat)
    requires c.interval > 0 && slot > 0
    ensures c.head == 0 ==> SlotTime(c, slot) == c.time + slot * c.interval
    ensures c.head > 0 ==> IsFloor(k, c.time, c.interval) && SlotTime(c, slot) == (k + slot + c.skip) * c.interval
  {
    k := c.time / c.interval;
    FloorIs(c.time, c.interval);
    assert (k + slot + c.skip) * c.interval == k * c.interval + (slot + c.skip) * c.interval;
  }

  function SlotAt(c: Clock, when: nat): nat
    requires c.interval > 0
  {
    if when < SlotTime(c, 1) then 0 else (when - SlotTime(c, 1)) / c.interval + 1
  }

  lemma TimeOfNext(c: Clock, slot: nat)
    requires c.interval > 0 && slot > 0
    ensures SlotTime(c, slot) == SlotTime(c, 1) + (slot - 1) * c.interval
  {
    var s := Skipped(c);
    assert (slot + s) * c.interval == (1 + s) * c.interval + (slot - 1) * c.interval;
  }

  lemma DivUnique(q: nat, r: nat, k: nat)
    requires r < k
    ensures (q * k + r) / k == q
  {
    var p := (q * k + r) / k;
    assert p * k <= q * k + r < (p + 1) * k;
    if p < q { MulLess(p + 1, q, k); }
    if q < p { MulLess(q + 1, p, k); }
  }

  /** Every slot starts at its own time. */
  lemma SlotOfTime(c: Clock, slot: nat)
    requires c.interval > 0 && slot > 0
    ensures SlotAt(c, SlotTime(c, slot)) == slot
  {
    TimeOfNext(c, slot);
    MulLess(0, slot - 1, c.interval);
    DivUnique(slot - 1, 0, c.interval);
  }

  /** A time belongs to a slot exactly when the slot has started and the next one has not. */
  lemma SlotAtIff(c: Clock, when: nat, slot: nat)
    requires c.interval > 0 && slot > 0
    ensures SlotAt(c, when) == slot <==> SlotTime(c, slot) <= when < SlotTime(c, slot + 1)
  {
    TimeOfNext(c, slot);
    TimeOfNext(c, slot + 1);
    MulLess(0, slot - 1, c.interval);
    MulLess(slot - 1, slot, c.interval);
    if when >= SlotTime(c, 1) { QuotientIff(when - SlotTime(c, 1), c.interval, slot - 1); }
  }

  lemma QuotientIff(d: nat, k: nat, q: nat)
    requires k > 0
    ensures d / k == q <==> q * k <= d < (q + 1) * k
  {
    var p := d / k;
    assert p * k <= d < (p + 1) * k;
    if p < q { MulLess(p + 1, q, k); }
    if q < p { MulLess(q + 1, p, k); }
  }

  /** A slot has started exactly if it is no later than the slot of the time, which is zero before the first. */
  lemma StartedIff(c: Clock, when: nat, slot: nat)
    requires c.interval > 0 && slot > 0
    ensures SlotTime(c, slot) <= when <==> slot <= SlotAt(c, when)
  {
    TimeOfNext(c, slot);
    MulLess(0, slot - 1, c.interval);
    if when >= SlotTime(c, 1) { FloorIff(when - SlotTime(c, 1), c.interval, slot - 1); }
  }

  /** The clock after a block in a slot, if it is not a maintenance block. */
  function After(c: Clock, slot: nat): Clock
    requires c.interval > 0
  {
    Clock(c.head + 1, SlotTime(c, slot), c.interval, 0)
  }

  /** Slots keep their times when the head moves on, except after the first block, if genesis was not at a
      multiple of the interval. */
  lemma TimesStayIff(c: Clock, slot: nat, later: nat)
    requires c.interval > 0 && slot > 0 && later > 0
    ensures SlotTime(After(c, slot), later) == SlotTime(c, slot + later) <==> c.head > 0 || c.time % c.interval == 0
  {
    var k, s := c.interval, slot + Skipped(c);
    assert SlotTime(c, slot + later) == SlotTime(c, slot) + later * k by { assert (s + later) * k == s * k + later * k; }
    var q, r := Base(c) / k, Base(c) % k;
    assert Base(c) == q * k + r;
    assert SlotTime(c, slot) == (q + s) * k + r by { assert (q + s) * k == q * k + s * k; }
    DivUnique(q + s, r, k);
    if c.head > 0 { DivUnique(c.time / k, 0, k); }
  }

  // ----- turns ---------------------------------------------------------------------------------

  function Scheduled(shuffled: seq<Witness>, aslot: nat, slot: nat): Witness
    requires shuffled != []
  {
    shuffled[(aslot + slot) % |shuffled|]
  }

  predicate Distinct(ws: seq<Witness>) {
    forall i, j :: 0 <= i < j < |ws| ==> ws[i] != ws[j]
  }

  /** Which of n slots in a row, from slot first on, falls to place p of the schedule. */
  function TurnOf(n: nat, aslot: nat, first: nat, p: nat): (k: nat)
    requires p < n
    ensures k < n
  {
    (p + n - (aslot + first) % n) % n
  }

  lemma TurnPlace(n: nat, start: nat, p: nat, k: nat)
    requires p < n && k < n
    ensures (start + k) % n == p <==> k == (p + n - start % n) % n
  {
    var r, q := start % n, start / n;
    assert start == q * n + r;
    WrapOnce(0, p + n - r, n);
    WrapOnce(q, r + k, n);
  }

  /** Below twice n, the remainder is got by taking n away once or not at all. */
  lemma WrapOnce(q: nat, x: nat, n: nat)
    requires n <= x + n < 3 * n
    ensures (q * n + x) % n == if x < n then x else x - n
  {
    if x < n {
      ModAdd(q, x, n);
    } else {
      ModAdd(q + 1, x - n, n);
      assert q * n + x == (q + 1) * n + (x - n);
    }
  }

  lemma ModAdd(q: nat, r: nat, n: nat)
    requires r < n
    ensures (q * n + r) % n == r
  {
    DivUnique(q, r, n);
    assert q * n + r == (q * n + r) / n * n + (q * n + r) % n;
  }

  /** Under a fixed schedule every witness signs in exactly one of any n slots in a row. */
  lemma OneTurnEach(shuffled: seq<Witness>, aslot: nat, first: nat, p: nat, k: nat)
    requires Distinct(shuffled) && p < |shuffled| && k < |shuffled|
    ensures Scheduled(shuffled, aslot, first + k) == shuffled[p] <==> k == TurnOf(|shuffled|, aslot, first, p)
  {
    var n := |shuffled|;
    TurnPlace(n, aslot + first, p, k);
    assert aslot + (first + k) == aslot + first + k;
    var place := (aslot + (first + k)) % n;
    if place != p {
      if place < p { assert shuffled[place] != shuffled[p]; } else { assert shuffled[p] != shuffled[place]; }
    }
  }

  // ----- the shuffle ------------------------------------------------------------------------------

  /** Places to swap with, one for each place: not before it, and in the list. */
  predicate Places(js: seq<nat>, n: nat) {
    |js| == n && forall i :: 0 <= i < n ==> i <= js[i] < n
  }

  /** One random number makes one such place. */
  function Place(random: nat, i: nat, n: nat): (j: nat)
    requires i < n
    ensures i <= j < n
  {
    i + random % (n - i)
  }

  function AllPlaces(random: seq<nat>): (js: seq<nat>)
    ensures Places(js, |random|)
  {
    seq(|random|, i requires 0 <= i < |random| => Place(random[i], i, |random|))
  }

  function Swapped(s: seq<Witness>, i: nat, j: nat): (t: seq<Witness>)
    requires i < |s| && j < |s|
    ensures |t| == |s|
  {
    s[i := s[j]][j := s[i]]
  }

  lemma SwapPermutes(s: seq<Witness>, i: nat, j: nat, t: seq<Witness>)
    requires i < |s| && j < |s| && t == Swapped(s, i, j)
    ensures multiset(t) == multiset(s)
  {}

  /** The list after the first i swaps. */
  function Shuffled(active: seq<Witness>, js: seq<nat>, i: nat): (s: seq<Witness>)
    requires i <= |active| && Places(js, |active|)
    ensures |s| == |active|
    decreases i
  {
    if i == 0 then active else Swapped(Shuffled(active, js, i - 1), i - 1, js[i - 1])
  }

  /** Nobody is lost and nobody comes twice, wherever the swaps go. */
  lemma {:induction false} ShuffledPermutes(active: seq<Witness>, js: seq<nat>, i: nat)
    requires i <= |active| && Places(js, |active|)
    ensures multiset(Shuffled(active, js, i)) == multiset(active)
    decreases i
  {
    if i > 0 {
      ShuffledPermutes(active, js, i - 1);
      OneMore(active, js, i - 1);
      SwapPermutes(Shuffled(active, js, i - 1), i - 1, js[i - 1], Shuffled(active, js, i));
    }
  }

  /** A place that has been swapped stays as it is. */
  lemma {:induction false} StaysPut(active: seq<Witness>, js: seq<nat>, i: nat, k: nat)
    requires i < k <= |active| && Places(js, |active|)
    ensures Shuffled(active, js, k)[i] == Shuffled(active, js, i + 1)[i]
    decreases k
  {
    if k > i + 1 {
      StaysPut(active, js, i, k - 1);
      OneSwapLater(active, js, i, k - 1);
    }
  }

  lemma OneSwapLater(active: seq<Witness>, js: seq<nat>, i: nat, k: nat)
    requires i < k < |active| && Places(js, |active|)
    ensures Shuffled(active, js, k + 1)[i] == Shuffled(active, js, k)[i]
  {
    OneMore(active, js, k);
    OtherPlace(Shuffled(active, js, k), k, js[k], i, Shuffled(active, js, k + 1));
  }

  lemma OtherPlace(s: seq<Witness>, i: nat, j: nat, k: nat, t: seq<Witness>)
    requires i < |s| && j < |s| && k < |s| && k != i && k != j && t == Swapped(s, i, j)
    ensures t[k] == s[k]
  {}

  /** Place i ends with what was at the place it is swapped with. */
  lemma EndsWith(active: seq<Witness>, js: seq<nat>, i: nat)
    requires i < |active| && Places(js, |active|)
    ensures Shuffled(active, js, |active|)[i] == Shuffled(active, js, i)[js[i]]
  {
    StaysPut(active, js, i, |active|);
  }

  lemma {:induction false} OnlyTheFirst(active: seq<Witness>, js: seq<nat>, ks: seq<nat>, i: nat)
    requires i <= |active| && Places(js, |active|) && Places(ks, |active|) && js[..i] == ks[..i]
    ensures Shuffled(active, js, i) == Shuffled(active, ks, i)
    decreases i
  {
    if i > 0 {
      assert js[..i - 1] == js[..i][..i - 1] == ks[..i][..i - 1] == ks[..i - 1];
      assert js[i - 1] == js[..i][i - 1] == ks[i - 1];
      OnlyTheFirst(active, js, ks, i - 1);
    }
  }

  lemma SameNext(active: seq<Witness>, js: seq<nat>, ks: seq<nat>, t: seq<Witness>, i: nat)
    requires Distinct(active) && i < |active| && Places(js, |active|) && Places(ks, |active|) && js[..i] == ks[..i]
    requires Shuffled(active, js, |active|) == t && Shuffled(active, ks, |active|) == t
    ensures js[i] == ks[i]
  {
    OnlyTheFirst(active, js, ks, i);
    EndsWith(active, js, i);
    EndsWith(active, ks, i);
    ShuffledPermutes(active, js, i);
    PermutedDistinct(active, Shuffled(active, js, i));
  }

  /** Different places to swap with give different orders. */
  lemma {:induction false} SameChoices(active: seq<Witness>, js: seq<nat>, ks: seq<nat>, t: seq<Witness>, i: nat)
    requires Distinct(active) && i <= |active| && Places(js, |active|) && Places(ks, |active|)
    requires Shuffled(active, js, |active|) == t && Shuffled(active, ks, |active|) == t
    ensures js[..i] == ks[..i]
    decreases i
  {
    if i > 0 {
      SameChoices(active, js, ks, t, i - 1);
      SameNext(active, js, ks, t, i - 1);
      OneMoreSame(js, ks, i);
    }
  }

  lemma OneMoreSame(js: seq<nat>, ks: seq<nat>, i: nat)
    requires 0 < i <= |js| && i <= |ks| && js[..i - 1] == ks[..i - 1] && js[i - 1] == ks[i - 1]
    ensures js[..i] == ks[..i]
  {
    assert js[..i] == js[..i - 1] + [js[i - 1]] && ks[..i] == ks[..i - 1] + [ks[i - 1]];
  }

  /** And every order comes of some. */
  lemma {:induction false} ChoicesFor(active: seq<Witness>, t: seq<Witness>, i: nat) returns (js: seq<nat>)
    requires multiset(t) == multiset(active) && |t| == |active| && i <= |active|
    ensures Places(js, |active|) && Shuffled(active, js, i)[..i] == t[..i]
    decreases i
  {
    if i == 0 {
      js := seq(|active|, n => n);
    } else {
      js := ChoicesFor(active, t, i - 1);
      js := NextChoice(active, t, js, i - 1);
    }
  }

  lemma NextChoice(active: seq<Witness>, t: seq<Witness>, js: seq<nat>, i: nat) returns (ks: seq<nat>)
    requires multiset(t) == multiset(active) && |t| == |active| && i < |active|
    requires Places(js, |active|) && Shuffled(active, js, i)[..i] == t[..i]
    ensures Places(ks, |active|) && Shuffled(active, ks, i + 1)[..i + 1] == t[..i + 1]
  {
    var s := Shuffled(active, js, i);
    ShuffledPermutes(active, js, i);
    var j := StillThere(s, t, i);
    ks := js[i := j];
    OnlyTheFirst(active, js, ks, i);
    SwappedFirst(s, t, i, j);
  }

  lemma SwappedFirst(s: seq<Witness>, t: seq<Witness>, i: nat, j: nat)
    requires |s| == |t| && i <= j < |s| && s[..i] == t[..i] && s[j] == t[i]
    ensures Swapped(s, i, j)[..i + 1] == t[..i + 1]
  {
    assert t[..i + 1] == t[..i] + [t[i]];
  }

  /** What is to come next has not been used up. */
  lemma StillThere(s: seq<Witness>, t: seq<Witness>, i: nat) returns (j: nat)
    requires multiset(s) == multiset(t) && |s| == |t| && i < |t| && s[..i] == t[..i]
    ensures i <= j < |s| && s[j] == t[i]
  {
    assert s == s[..i] + s[i..] && t == t[..i] + t[i..];
    assert multiset(s) == multiset(s[..i]) + multiset(s[i..]) && multiset(t) == multiset(t[..i]) + multiset(t[i..]);
    forall w ensures multiset(s[i..])[w] == multiset(t[i..])[w] {
      assert multiset(s)[w] == multiset(s[..i])[w] + multiset(s[i..])[w];
      assert multiset(t)[w] == multiset(t[..i])[w] + multiset(t[i..])[w];
    }
    assert t[i..][0] == t[i] && t[i] in multiset(t[i..]);
    var k :| 0 <= k < |s[i..]| && s[i..][k] == t[i];
    j := i + k;
  }

  lemma SameLength(s: seq<Witness>, t: seq<Witness>)
    requires multiset(s) == multiset(t)
    ensures |s| == |t|
  {
    assert |multiset(s)| == |s| && |multiset(t)| == |t|;
  }

  /** Random numbers decide the order, and nothing else does: every order of the active witnesses comes of exactly one
      choice of places. Place i is chosen by the remainder of a random number among the places that are left. */
  lemma AnyOrder(active: seq<Witness>, t: seq<Witness>) returns (js: seq<nat>)
    requires Distinct(active) && multiset(t) == multiset(active)
    ensures Places(js, |active|) && Shuffled(active, js, |active|) == t
    ensures forall ks :: Places(ks, |active|) && Shuffled(active, ks, |active|) == t ==> ks == js
  {
    SameLength(active, t);
    js := ChoicesFor(active, t, |active|);
    var s := Shuffled(active, js, |active|);
    assert s == s[..|active|] && t == t[..|active|];
    forall ks | Places(ks, |active|) && Shuffled(active, ks, |active|) == t ensures ks == js {
      SameChoices(active, js, ks, t, |active|);
      assert ks == ks[..|active|] && js == js[..|active|];
    }
  }

  predicate Leaves(random: nat, k: nat, q: nat, r: nat) {
    random == q * k + r
  }

  /** Each of the k places that are left is chosen by one remainder. */
  lemma PlaceIff(random: nat, i: nat, k: nat, r: nat)
    requires r < k
    ensures Place(random, i, i + k) == i + r <==> exists q: nat :: Leaves(random, k, q, r)
  {
    assert Leaves(random, k, random / k, random % k);
    forall q: nat | Leaves(random, k, q, r) ensures random % k == r { ModAdd(q, r, k); }
  }

  lemma PermutedDistinct(s: seq<Witness>, t: seq<Witness>)
    requires multiset(s) == multiset(t) && Distinct(s)
    ensures Distinct(t)
  {
    forall i, j | 0 <= i < j < |t| ensures t[i] != t[j] {
      if t[i] == t[j] {
        TwiceIn(t, i, j);
        OnceIn(s, t[i]);
      }
    }
  }

  lemma TwiceIn(t: seq<Witness>, i: nat, j: nat)
    requires i < j < |t| && t[i] == t[j]
    ensures multiset(t)[t[i]] >= 2
  {
    assert t == t[..j] + t[j..];
    assert t[i] in t[..j] && t[i] in t[j..];
    assert t[..j][i] == t[i] && t[j..][0] == t[i];
  }

  lemma {:induction false} OnceIn(s: seq<Witness>, w: Witness)
    requires Distinct(s)
    ensures multiset(s)[w] <= 1
    decreases |s|
  {
    if s != [] {
      var last := |s| - 1;
      assert s == s[..last] + [s[last]];
      OnceIn(s[..last], w);
      if w == s[last] { assert w !in s[..last]; }
    }
  }

  class Scheduler {
    var shuffled: seq<Witness>

    constructor (active: seq<Witness>)
      ensures shuffled == active
    {
      shuffled := active;
    }

    method SwapAt(i: nat, j: nat)
      requires i < |shuffled| && j < |shuffled|
      modifies this
      ensures shuffled == Swapped(old(shuffled), i, j)
    {
      var w := shuffled[i];
      shuffled := shuffled[i := shuffled[j]];
      shuffled := shuffled[j := w];
    }

    /** Goes through the list once, swapping each place with itself or a later one. */
    method Shuffle(active: seq<Witness>, js: seq<nat>)
      requires Places(js, |active|)
      modifies this
      ensures shuffled == Shuffled(active, js, |active|)
    {
      shuffled := active;
      var i := 0;
      while i < |active|
        invariant 0 <= i <= |active|
        invariant shuffled == Shuffled(active, js, i)
      {
        OneMore(active, js, i);
        SwapAt(i, js[i]);
        i := i + 1;
      }
    }

    /** At the end of every round a new order is drawn; in between the old one stays. */
    method Update(active: seq<Witness>, head: nat, random: seq<nat>)
      requires active != [] && |random| == |active|
      modifies this
      ensures shuffled == if head % |active| == 0 then Shuffled(active, AllPlaces(random), |active|) else old(shuffled)
    {
      if head % |active| == 0 {
        Shuffle(active, AllPlaces(random));
      }
    }
  }

  lemma OneMore(active: seq<Witness>, js: seq<nat>, i: nat)
    requires i < |active| && Places(js, |active|)
    ensures Shuffled(active, js, i + 1) == Swapped(Shuffled(active, js, i), i, js[i])
  {}

  predicate HasTurn(shuffled: seq<Witness>, aslot: nat, first: nat, k: nat, w: Witness)
    requires shuffled != []
  {
    Scheduled(shuffled, aslot, first + k) == w
  }

  /** In the round after a shuffle every active witness has exactly one turn. */
  lemma FairRound(active: seq<Witness>, random: seq<nat>, aslot: nat, first: nat, w: Witness) returns (k: nat)
    requires Distinct(active) && w in active && |random| == |active|
    ensures var s := Shuffled(active, AllPlaces(random), |active|);
      && k < |s| && HasTurn(s, aslot, first, k, w)
      && forall j :: 0 <= j < |s| && HasTurn(s, aslot, first, j, w) ==> j == k
  {
    var s := Shuffled(active, AllPlaces(random), |active|);
    ShuffledPermutes(active, AllPlaces(random), |active|);
    PermutedDistinct(active, s);
    assert w in multiset(s);
    var p :| 0 <= p < |s| && s[p] == w;
    k := TurnOf(|s|, aslot, first, p);
    OneTurnEach(s, aslot, first, p, k);
    forall j | 0 <= j < |s| && HasTurn(s, aslot, first, j, w) ensures j == k {
      OneTurnEach(s, aslot, first, p, j);
    }
  }
}
