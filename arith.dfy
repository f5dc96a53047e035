/** Facts about multiplication and Euclidean division that the naming
    lemmas rely on. */
module Arith {

  lemma MulAtLeast(d: int, n: int)
    requires d >= 1 && n >= 0
    ensures d * n >= n
  {
    var k := d - 1;
    assert d * n == k * n + n;
    assert k * n >= 0;
  }

  /** Quotient and remainder are unique. */
  lemma DivModUnique(a: nat, n: nat, q: int, r: int)
    requires n > 0 && a == q * n + r && 0 <= r < n
    ensures a / n == q && a % n == r
  {
    var q0, r0 := a / n, a % n;
    assert a == q0 * n + r0;
    if q0 < q {
      assert (q - q0) * n == q * n - q0 * n;
      MulAtLeast(q - q0, n);
    } else if q0 > q {
      assert (q0 - q) * n == q0 * n - q * n;
      MulAtLeast(q0 - q, n);
    }
  }

  lemma MulMonotone(a: nat, b: nat, n: nat)
    requires a <= b
    ensures a * n <= b * n
  {
    assert b * n == a * n + (b - a) * n;
  }

  /** An index below `m * n` splits into a quotient below `m` and a
      remainder below `n`. */
  lemma DivBelow(k: nat, n: nat, m: nat)
    requires n > 0 && k < m * n
    ensures 0 <= k / n < m && 0 <= k % n < n && (k / n) * n + k % n == k
  {
    if k / n >= m {
      MulMonotone(m, k / n, n);
    }
  }

  lemma ModAddPeriod(a: nat, n: nat)
    requires n > 0
    ensures (a + n) % n == a % n
  {
    assert a == (a / n) * n + a % n;
    assert a + n == (a / n + 1) * n + a % n;
    DivModUnique(a + n, n, a / n + 1, a % n);
  }
}
