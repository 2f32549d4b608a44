/** Totals over tables: each row contributes its weight. */
module Sums {

  ghost function SumBy<K, V>(m: map<K, V>, w: (K, V) -> int): int
    decreases |m|
  {
    if m == map[] then 0
    else
      var k :| k in m;
      assert |m - {k}| < |m| by { assert (m - {k}).Keys == m.Keys - {k}; }
      w(k, m[k]) + SumBy(m - {k}, w)
  }

  lemma MinusSize<K, V>(m: map<K, V>, k: K)
    requires k in m
    ensures |m - {k}| < |m|
  {
    assert (m - {k}).Keys == m.Keys - {k};
  }

  /** Any row may be taken out first. */
  lemma {:induction false} SumTake<K, V>(m: map<K, V>, w: (K, V) -> int, k: K)
    requires k in m
    ensures SumBy(m, w) == w(k, m[k]) + SumBy(m - {k}, w)
    decreases |m|
  {
    var j :| j in m && SumBy(m, w) == w(j, m[j]) + SumBy(m - {j}, w);
    if j != k {
      MinusSize(m, j);
      MinusSize(m, k);
      SumTake(m - {j}, w, k);
      SumTake(m - {k}, w, j);
      assert m - {j} - {k} == m - {k} - {j};
    }
  }

  function Weight<K, V>(m: map<K, V>, w: (K, V) -> int, k: K): int {
    if k in m then w(k, m[k]) else 0
  }

  /** Writing one row changes the total by the difference of its weights. */
  lemma SumPut<K, V>(m: map<K, V>, w: (K, V) -> int, k: K, v: V)
    ensures SumBy(m[k := v], w) == SumBy(m, w) - Weight(m, w, k) + w(k, v)
  {
    SumTake(m[k := v], w, k);
    assert m[k := v] - {k} == m - {k};
    if k in m {
      SumTake(m, w, k);
    } else {
      assert m - {k} == m;
    }
  }

  lemma SumDrop<K, V>(m: map<K, V>, w: (K, V) -> int, k: K)
    ensures SumBy(m - {k}, w) == SumBy(m, w) - Weight(m, w, k)
  {
    if k in m {
      SumTake(m, w, k);
    } else {
      assert m - {k} == m;
    }
  }

  /** One row never weighs more than all of them, when none weighs less than nothing. */
  lemma {:induction false} SumAtLeast<K, V>(m: map<K, V>, w: (K, V) -> int, k: K)
    requires k in m && forall j :: j in m ==> w(j, m[j]) >= 0
    ensures w(k, m[k]) <= SumBy(m, w)
  {
    SumTake(m, w, k);
    SumNonNegative(m - {k}, w);
  }

  lemma {:induction false} SumNonNegative<K, V>(m: map<K, V>, w: (K, V) -> int)
    requires forall j :: j in m ==> w(j, m[j]) >= 0
    ensures SumBy(m, w) >= 0
    decreases |m|
  {
    if m != map[] {
      var k :| k in m && SumBy(m, w) == w(k, m[k]) + SumBy(m - {k}, w);
      MinusSize(m, k);
      SumNonNegative(m - {k}, w);
    }
  }

  /** A positive total has a positive row. */
  lemma {:induction false} SumPositive<K, V>(m: map<K, V>, w: (K, V) -> int) returns (k: K)
    requires SumBy(m, w) > 0
    ensures k in m && w(k, m[k]) > 0
    decreases |m|
  {
    k :| k in m && SumBy(m, w) == w(k, m[k]) + SumBy(m - {k}, w);
    if w(k, m[k]) <= 0 {
      MinusSize(m, k);
      k := SumPositive(m - {k}, w);
    }
  }

  lemma {:induction false} SumZero<K, V>(m: map<K, V>, w: (K, V) -> int)
    requires forall j :: j in m ==> w(j, m[j]) == 0
    ensures SumBy(m, w) == 0
    decreases |m|
  {
    if m != map[] {
      var k :| k in m && SumBy(m, w) == w(k, m[k]) + SumBy(m - {k}, w);
      MinusSize(m, k);
      SumZero(m - {k}, w);
    }
  }

  lemma {:induction false} SumSame<K, V>(m: map<K, V>, w: (K, V) -> int, v: (K, V) -> int)
    requires forall j :: j in m ==> w(j, m[j]) == v(j, m[j])
    ensures SumBy(m, w) == SumBy(m, v)
    decreases |m|
  {
    if m != map[] {
      var k :| k in m && SumBy(m, w) == w(k, m[k]) + SumBy(m - {k}, w);
      SumTake(m, v, k);
      MinusSize(m, k);
      SumSame(m - {k}, w, v);
    }
  }
}
