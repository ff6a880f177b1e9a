/** The 31-bit "minimum standard" generator and the range reduction built on it (rnd.c). */
module Rnd {
  import opened ModArith

  const MULTIPLIER := 16807
  const MODULUS := 2147483647
  /** The inverse of MULTIPLIER modulo MODULUS. */
  const INVERSE := 1407677000

  /** The values a stream can hold: 1 .. 2^31 - 2. */
  type Live = v: int | 0 < v < MODULUS witness 1

  function NextRand(v: Live): Live
  {
    StaysLive(v);
    (v * MULTIPLIER) % MODULUS
  }

  function PrevRand(v: Live): Live
  {
    PrevStaysLive(v);
    (v * INVERSE) % MODULUS
  }

  /** n draws from a stream. */
  function Iter(n: nat, v: Live): Live
  {
    if n == 0 then v else NextRand(Iter(n - 1, v))
  }

  lemma Undo(v: int, a: int, b: int)
    requires 0 <= v < MODULUS && a * b % MODULUS == 1
    ensures ((v * a) % MODULUS * b) % MODULUS == v
  {
    MulModLeft(v * a, b, MODULUS);
    assert v * a * b == v * (a * b);
    MulModRight(v, a * b, MODULUS);
    DivModUnique(v, MODULUS, 0, v);
  }

  lemma StaysLive(v: Live)
    ensures 0 < (v * MULTIPLIER) % MODULUS < MODULUS
  {
    Undo(v, MULTIPLIER, INVERSE);
  }

  lemma PrevStaysLive(v: Live)
    ensures 0 < (v * INVERSE) % MODULUS < MODULUS
  {
    Undo(v, INVERSE, MULTIPLIER);
  }

  /** NextRand is a bijection on the live values. */
  lemma NextRandBijective(v: Live)
    ensures PrevRand(NextRand(v)) == v
    ensures NextRand(PrevRand(v)) == v
  {
    Undo(v, MULTIPLIER, INVERSE);
    Undo(v, INVERSE, MULTIPLIER);
  }

  /** Two streams that agree after n draws agreed before them: skipping loses nothing. */
  lemma {:induction false} IterInjective(n: nat, v: Live, w: Live)
    ensures Iter(n, v) == Iter(n, w) <==> v == w
  {
    if n > 0 {
      NextRandBijective(Iter(n - 1, v));
      NextRandBijective(Iter(n - 1, w));
      IterInjective(n - 1, v, w);
    }
  }

  /** Skips compose additively. */
  lemma {:induction false} IterAdd(a: nat, b: nat, v: Live)
    ensures Iter(a, Iter(b, v)) == Iter(a + b, v)
  {
    if a > 0 {
      IterAdd(a - 1, b, v);
    }
  }

  // ----- range reduction, over exact rationals -----

  /** The value drawn from [lo, hi] when the stream has moved on to v. */
  function UnifInt(lo: int, hi: int, v: Live): int
  {
    lo + (v * (hi - lo + 1)) / MODULUS
  }

  /**
   * The stream values are dealt out to the members of the range in order, in cells of equal width: a value draws x
   * exactly if it lies in the cell of x.
   */
  lemma UnifIntCell(lo: int, hi: int, v: Live, x: int)
    requires lo <= hi
    ensures UnifInt(lo, hi, v) == x <==> (x - lo) * MODULUS <= v * (hi - lo + 1) < (x - lo + 1) * MODULUS
  {
    var product := v * (hi - lo + 1);
    assert (x - lo + 1) * MODULUS == (x - lo) * MODULUS + MODULUS;
    if (x - lo) * MODULUS <= product < (x - lo + 1) * MODULUS {
      DivModUnique(product, MODULUS, x - lo, product - (x - lo) * MODULUS);
    }
  }

  /** Every draw lies in the requested range. */
  lemma UnifIntRange(lo: int, hi: int, v: Live)
    requires lo <= hi
    ensures lo <= UnifInt(lo, hi, v) <= hi
  {
    var range := hi - lo + 1;
    assert 0 <= v * range;
    assert v * range < MODULUS * range by { MulMono(v, MODULUS - 1, range); }
    var q := (v * range) / MODULUS;
    if q >= range { MulMono(range, q, MODULUS); }
  }

  lemma QuotientBounds(x: int, m: int)
    requires 0 <= x && 0 < m
    ensures 0 <= x / m && x / m * m <= x < (x / m + 1) * m == x / m * m + m
  {}

  /** And every member of a range narrower than the modulus is drawn by some stream value. */
  lemma UnifIntOnto(lo: int, hi: int, x: int) returns (v: Live)
    requires lo <= x <= hi && hi - lo + 1 < MODULUS
    ensures UnifInt(lo, hi, v) == x
  {
    var range, k := hi - lo + 1, x - lo;
    var q := (k * MODULUS) / range;
    QuotientBounds(k * MODULUS, range);
    MulMono(k, range - 1, MODULUS);
    if q + 1 >= MODULUS { MulMono(MODULUS - 1, q, range); }
    v := q + 1;
    UnifIntCell(lo, hi, v, x);
  }
}
