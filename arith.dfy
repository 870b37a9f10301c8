/** Integer facts the wrap-around of lattice coordinates and the reduction of
    random draws rely on: Python's `%` by a positive modulus is Dafny's. */
module Arith {

  lemma MulAtLeast(k: int, m: int)
    requires k >= 1 && m >= 1
    ensures k * m >= m
  {
    assert (k - 1) * m >= 0;
  }

  /** A multiple of m strictly between -m and m is 0 * m. */
  lemma SmallMultiple(d: int, m: int)
    requires m >= 1 && -m < d * m < m
    ensures d == 0
  {
    if d >= 1 {
      MulAtLeast(d, m);
      assert false;
    } else if d <= -1 {
      MulAtLeast(-d, m);
      assert false;
    }
  }

  lemma ModUnique(a: int, m: int, q: int, r: int)
    requires m >= 1 && 0 <= r < m && a == q * m + r
    ensures a % m == r
  {
    var q2, r2 := a / m, a % m;
    assert (q - q2) * m == r2 - r;
    SmallMultiple(q - q2, m);
  }

  lemma ModShift(c: int, m: int)
    requires m >= 1
    ensures (c + m) % m == c % m
  {
    var q, r := c / m, c % m;
    assert c + m == (q + 1) * m + r;
    ModUnique(c + m, m, q + 1, r);
  }
}
