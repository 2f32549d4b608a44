/** Products, quotients and remainders. */
module Arithmetic {
  function Min(a: nat, b: nat): nat {
    if a < b then a else b
  }

  function Max(a: nat, b: nat): nat {
    if a < b then b else a
  }

  lemma MulLess(a: int, b: int, c: int)
    requires a <= b && c >= 0
    ensures a * c <= b * c
  {}

  /** z fits k times into n exactly when it does not exceed the floor. */
  lemma FloorIff(n: nat, k: nat, z: nat)
    requires k > 0
    ensures z <= n / k <==> z * k <= n
  {
    var q := n / k;
    assert q * k <= n < (q + 1) * k;
    if z <= q {
      MulLess(z, q, k);
    } else {
      MulLess(q + 1, z, k);
    }
  }

  lemma FloorMonotone(m: nat, n: nat, k: nat)
    requires m <= n && k > 0
    ensures m / k <= n / k
  {
    FloorIff(m, k, m / k);
    FloorIff(n, k, m / k);
  }

  /** q is what n comes to, divided by d and rounded down. */
  predicate IsFloor(q: nat, n: nat, d: nat) {
    q * d <= n < (q + 1) * d
  }

  lemma FloorIs(n: nat, d: nat)
    requires d > 0
    ensures IsFloor(n / d, n, d)
  {
    var q := n / d;
    assert q * d <= n < (q + 1) * d;
  }

  lemma ModUp(z: int, n: nat)
    requires z < 0 <= z + n
    ensures n > 0 && z % n == z + n
  {
    assert z / n == -1;
  }
}
