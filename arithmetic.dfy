// Facts about integer floor division and remainder used by the two valve
// schedulers, which index cylinders with `//` and `%` on a tick counter.
module Arithmetic {

  /** Floor division and remainder are determined by any decomposition a == d * q + r with 0 <= r < d. */
  lemma DivModUnique(a: int, d: int, q: int, r: int)
    requires d > 0 && 0 <= r < d && a == d * q + r
    ensures a / d == q && a % d == r
  {
    var k := q - a / d;
    assert d * k == a % d - r;
    if k != 0 {
      MulAwayFromZero(d, k);
      assert false;
    }
  }

  lemma MulAwayFromZero(d: int, k: int)
    requires d > 0 && k != 0
    ensures d * k >= d || d * k <= -d
  {
    if k > 0 {
      MulAtLeast(d, k);
    } else {
      MulAtLeast(d, -k);
      assert d * k == -(d * (-k));
    }
  }

  lemma {:induction false} MulAtLeast(d: int, k: int)
    requires d > 0 && k >= 1
    ensures d * k >= d
    decreases k
  {
    if k > 1 {
      MulAtLeast(d, k - 1);
      assert d * k == d * (k - 1) + d;
    }
  }

  /** Adding a multiple of d, plus j < d, leaves remainder j. */
  lemma ModOffset(base: nat, j: nat, d: nat)
    requires d > 0 && base % d == 0 && j < d
    ensures (base + j) % d == j
  {
    DivModUnique(base + j, d, base / d, j);
  }

  /** A sum of two values below n, reduced modulo n, wraps at most once. */
  lemma ModWrapOnce(a: nat, n: nat)
    requires n > 0 && a < 2 * n
    ensures a % n == (if a < n then a else a - n)
  {
    if a < n {
      DivModUnique(a, n, 0, a);
    } else {
      DivModUnique(a, n, 1, a - n);
    }
  }
}
