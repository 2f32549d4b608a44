/** How many numbers of a list are below a bound, and the one that would be at a place if they were sorted. */
module Counting {

  function Below(xs: seq<nat>, b: nat): (n: nat)
    ensures n <= |xs|
    decreases |xs|
  {
    if xs == [] then 0 else (if xs[0] < b then 1 else 0) + Below(xs[1..], b)
  }

  function AtLeast(xs: seq<nat>, b: nat): nat {
    |xs| - Below(xs, b)
  }

  lemma {:induction false} BelowGrows(xs: seq<nat>, b: nat, c: nat)
    requires b <= c
    ensures Below(xs, b) <= Below(xs, c)
    decreases |xs|
  {
    if xs != [] { BelowGrows(xs[1..], b, c); }
  }

  lemma {:induction false} BelowMore(xs: seq<nat>, b: nat)
    requires Below(xs, b) < Below(xs, b + 1)
    ensures b in xs
    decreases |xs|
  {
    if xs[0] != b { BelowMore(xs[1..], b); }
  }

  lemma {:induction false} BelowAll(xs: seq<nat>, b: nat)
    requires forall x :: x in xs ==> x < b
    ensures Below(xs, b) == |xs|
    decreases |xs|
  {
    if xs != [] {
      assert xs[0] in xs;
      assert forall x :: x in xs[1..] ==> x in xs;
      BelowAll(xs[1..], b);
    }
  }

  lemma {:induction false} BelowZero(xs: seq<nat>)
    ensures Below(xs, 0) == 0
    decreases |xs|
  {
    if xs != [] { BelowZero(xs[1..]); }
  }

  /** v would be at place k: at most k numbers are smaller, and more than k are no larger. */
  predicate IsNth(xs: seq<nat>, k: nat, v: nat) {
    v in xs && Below(xs, v) <= k < Below(xs, v + 1)
  }

  lemma {:induction false} Bound(xs: seq<nat>) returns (b: nat)
    ensures forall x :: x in xs ==> x < b
    decreases |xs|
  {
    b := 0;
    if xs != [] {
      b := Bound(xs[1..]);
      forall x | x in xs ensures x < b || x == xs[0] { if x != xs[0] { assert x in xs[1..]; } }
      if b <= xs[0] { b := xs[0] + 1; }
    }
  }

  lemma {:induction false} Crossing(xs: seq<nat>, k: nat, b: nat) returns (v: nat)
    requires k < Below(xs, b)
    ensures Below(xs, v) <= k < Below(xs, v + 1)
    decreases b
  {
    BelowZero(xs);
    if Below(xs, b - 1) <= k { v := b - 1; } else { v := Crossing(xs, k, b - 1); }
  }

  lemma HasNth(xs: seq<nat>, k: nat)
    requires k < |xs|
    ensures exists v :: IsNth(xs, k, v)
  {
    var b := Bound(xs);
    BelowAll(xs, b);
    var v := Crossing(xs, k, b);
    BelowMore(xs, v);
    assert IsNth(xs, k, v);
  }

  lemma NthUnique(xs: seq<nat>, k: nat, v: nat, w: nat)
    requires IsNth(xs, k, v) && IsNth(xs, k, w)
    ensures v == w
  {
    if v < w { BelowGrows(xs, v + 1, w); }
    if w < v { BelowGrows(xs, w + 1, v); }
  }

  ghost function Nth(xs: seq<nat>, k: nat): (v: nat)
    requires k < |xs|
    ensures IsNth(xs, k, v)
  {
    HasNth(xs, k);
    var v :| IsNth(xs, k, v);
    v
  }

  /** It is the largest bound that all but k numbers reach. */
  lemma LargestReached(xs: seq<nat>, k: nat, b: nat)
    requires k < |xs|
    ensures AtLeast(xs, b) >= |xs| - k <==> b <= Nth(xs, k)
  {
    var v := Nth(xs, k);
    if b <= v { BelowGrows(xs, b, v); } else { BelowGrows(xs, v + 1, b); }
  }

  /** The library's selection of the element at a place. */
  method NthElement(xs: seq<nat>, k: nat) returns (v: nat)
    requires k < |xs|
    ensures v == Nth(xs, k)
  {
    HasNth(xs, k);
    v :| v in xs && IsNth(xs, k, v);
    NthUnique(xs, k, v, Nth(xs, k));
  }
}
