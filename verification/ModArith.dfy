/** Facts about `/` and `%` with a positive divisor that the generators rest on. */
module ModArith {

  /** Quotient and remainder are unique. */
  lemma DivModUnique(x: int, m: int, q: int, r: int)
    requires 0 < m && 0 <= r < m && x == q * m + r
    ensures x / m == q && x % m == r
  {
    var d := x / m - q;
    assert d * m == r - x % m by {
      assert x == (x / m) * m + x % m;
      assert (x / m - q) * m == (x / m) * m - q * m;
    }
    if d >= 1 { MulMono(1, d, m); } else if d <= -1 { MulMono(d, -1, m); }
  }

  lemma MulMono(a: int, b: int, m: int)
    requires a <= b && 0 <= m
    ensures a * m <= b * m
  {
    assert 0 <= (b - a) * m;
    assert (b - a) * m == b * m - a * m;
  }

  lemma ModAddMultiple(x: int, k: int, m: int)
    requires 0 < m
    ensures (x + k * m) % m == x % m && (x + k * m) / m == x / m + k
  {
    assert (x / m + k) * m == (x / m) * m + k * m;
    DivModUnique(x + k * m, m, x / m + k, x % m);
  }

  lemma MulModRight(a: int, b: int, m: int)
    requires 0 < m
    ensures (a * (b % m)) % m == (a * b) % m
  {
    var q, r := b / m, b % m;
    assert a * b == a * r + (a * q) * m by {
      assert b == q * m + r;
      assert a * (q * m + r) == a * (q * m) + a * r;
      assert a * (q * m) == (a * q) * m;
    }
    ModAddMultiple(a * r, a * q, m);
  }

  lemma MulModLeft(a: int, b: int, m: int)
    requires 0 < m
    ensures ((a % m) * b) % m == (a * b) % m
  {
    MulModRight(b, a, m);
    assert (a % m) * b == b * (a % m) && a * b == b * a;
  }

  lemma AddModLeft(a: int, b: int, m: int)
    requires 0 < m
    ensures (a % m + b) % m == (a + b) % m
  {
    assert a + b == (a % m + b) + (a / m) * m;
    ModAddMultiple(a % m + b, a / m, m);
  }

  /** Two congruent numbers less than `m` apart are equal. */
  lemma CongruentClose(x: int, y: int, m: int)
    requires 0 < m && x % m == y % m && -m < x - y < m
    ensures x == y
  {
    var d := x / m - y / m;
    assert x - y == d * m by { assert (x / m - y / m) * m == (x / m) * m - (y / m) * m; }
    if d >= 1 { MulMono(1, d, m); } else if d <= -1 { MulMono(d, -1, m); }
  }
}
