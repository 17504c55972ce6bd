/** Division by a variable, for rotation arithmetic and digit strings. */
module Arithmetic {
  lemma NoMultipleBetween(n: nat, d: int)
    requires n > 0
    ensures !(0 < n * d < n)
  {
    if d >= 1 {
      assert n * d >= n * 1;
    } else {
      assert n * d <= n * 0;
    }
  }

  lemma Residue(n: nat, q: int, r: nat)
    requires r < n
    ensures (n * q + r) % n == r && (n * q + r) / n == q
  {
    var x := n * q + r;
    NoMultipleBetween(n, x / n - q);
    NoMultipleBetween(n, q - x / n);
    assert n * (x / n - q) == n * (x / n) - n * q && n * (q - x / n) == n * q - n * (x / n);
    assert x == n * (x / n) + x % n;
    if x / n != q {
      SmallProduct(n, x / n - q);
    }
  }

  lemma SmallProduct(n: int, d: int)
    requires n > 0 && d != 0
    ensures n * d >= n || n * d <= -n
  {
    if d >= 1 {
      assert n * d >= n * 1;
    } else {
      assert n * d <= n * -1;
    }
  }

  lemma SameResidue(n: nat, q: int, x: int)
    requires n > 0
    ensures (x + n * q) % n == x % n
  {
    var a, r := x / n, x % n;
    assert x == n * a + r;
    assert n * (a + q) == n * a + n * q;
    Residue(n, a + q, r);
    assert x + n * q == n * (a + q) + r;
  }
}
