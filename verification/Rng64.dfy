/** The 64-bit linear congruential generator and its jump-ahead (rng64.c). */
module Rng64 {
  import opened ModArith

  const RNG_A := 6364136223846793005
  const RNG_C := 1
  const WORD := 0x1_0000_0000_0000_0000
  const HALF := 0x8000_0000_0000_0000

  /** A signed 64-bit integer. */
  type Int64 = x: int | -HALF <= x < HALF witness 0

  /** Truncation of an exact result to a signed 64-bit integer. */
  function Signed(x: int): (r: Int64)
    ensures r % WORD == x % WORD
  {
    var u := x % WORD;
    if u < HALF then u else
      ModAddMultiple(u, -1, WORD);
      u - WORD
  }

  lemma SignedCongruent(x: int, y: int)
    requires x % WORD == y % WORD
    ensures Signed(x) == Signed(y)
  {}

  function NextRand64(seed: Int64): Int64
  {
    Signed(seed * RNG_A + RNG_C)
  }

  /** n draws from a 64-bit stream. */
  function Iter64(n: nat, seed: Int64): Int64
  {
    if n == 0 then seed else NextRand64(Iter64(n - 1, seed))
  }

  /** RNG_A to the n-th power, exactly. */
  function Power(n: nat): int
  {
    if n == 0 then 1 else RNG_A * Power(n - 1)
  }

  /** 1 + A + ... + A^(n-1), exactly. */
  function Geometric(n: nat): int
  {
    if n == 0 then 0 else Geometric(n - 1) + Power(n - 1)
  }

  lemma {:induction false} PowerAdd(a: nat, b: nat)
    ensures Power(a + b) == Power(a) * Power(b)
  {
    if a > 0 {
      PowerAdd(a - 1, b);
      assert RNG_A * (Power(a - 1) * Power(b)) == (RNG_A * Power(a - 1)) * Power(b);
    }
  }

  lemma {:induction false} GeometricAdd(a: nat, b: nat)
    ensures Geometric(a + b) == Geometric(a) + Power(a) * Geometric(b)
  {
    if b > 0 {
      GeometricAdd(a, b - 1);
      PowerAdd(a, b - 1);
      assert Power(a) * (Geometric(b - 1) + Power(b - 1)) == Power(a) * Geometric(b - 1) + Power(a) * Power(b - 1);
    }
  }

  /** A * (1 + ... + A^(n-1)) + 1 is one term longer. */
  lemma GeometricShift(n: nat)
    ensures Geometric(n + 1) == RNG_A * Geometric(n) + 1
  {
    GeometricAdd(1, n);
    assert Power(1) == RNG_A * Power(0);
    assert Geometric(1) == Geometric(0) + Power(0);
  }

  lemma SignedSame(x: Int64)
    ensures Signed(x) == x
  {
    CongruentClose(Signed(x), x, WORD);
  }

  /** The closed form of n draws. */
  lemma {:induction false} ClosedForm(n: nat, seed: Int64)
    ensures Iter64(n, seed) == Signed(seed * Power(n) + Geometric(n) * RNG_C)
  {
    hide NextRand64, Signed;
    if n == 0 {
      SignedSame(seed);
      assert Power(0) == 1 && Geometric(0) == 0;
    } else {
      ClosedForm(n - 1, seed);
      GeometricShift(n - 1);
      var p, g, prev := Power(n - 1), Geometric(n - 1), Iter64(n - 1, seed);
      assert Iter64(n, seed) == NextRand64(prev) && Power(n) == RNG_A * p;
      hide Iter64, Power, Geometric;
      ClosedStep(seed, p, g, prev);
    }
  }

  lemma ClosedStep(seed: int, p: int, g: int, prev: Int64)
    requires prev == Signed(seed * p + g)
    ensures NextRand64(prev) == Signed(seed * (RNG_A * p) + (RNG_A * g + 1))
  {
    hide NextRand64, Signed;
    NextOfSigned(seed * p + g);
    OneMore(seed, p, g);
  }

  lemma OneMore(seed: int, p: int, g: int)
    ensures (seed * p + g) * RNG_A + RNG_C == seed * (RNG_A * p) + (RNG_A * g + 1)
  {
    assert seed * p * RNG_A == seed * (RNG_A * p);
  }

  /** Truncating before a step does not change its outcome. */
  lemma NextOfSigned(x: int)
    ensures NextRand64(Signed(x)) == Signed(x * RNG_A + RNG_C)
  {
    MulModLeft(Signed(x), RNG_A, WORD);
    MulModLeft(x, RNG_A, WORD);
    AddModLeft(Signed(x) * RNG_A, RNG_C, WORD);
    AddModLeft(x * RNG_A, RNG_C, WORD);
    hide Signed;
    SignedCongruent(Signed(x) * RNG_A + RNG_C, x * RNG_A + RNG_C);
  }

  /** n >> b. */
  function Shr(n: nat, b: nat): nat
  {
    if b == 0 then n else Shr(n, b - 1) / 2
  }

  lemma {:induction false} ShrStep(n: nat, b: nat)
    ensures Shr(n / 2, b) == Shr(n, b + 1)
  {
    if b > 0 { ShrStep(n, b - 1); }
  }

  /** The position of the leading bit. */
  function TopBit(n: nat): nat
    requires n > 0
  {
    if n == 1 then 0 else 1 + TopBit(n / 2)
  }

  lemma {:induction false} TopBitIsTop(n: nat, b: nat)
    requires n > 0
    ensures Shr(n, TopBit(n)) == 1
    ensures b < TopBit(n) ==> Shr(n, b) > 1
  {
    if n > 1 {
      TopBitIsTop(n / 2, if b > 0 then b - 1 else 0);
      ShrStep(n, TopBit(n / 2));
      if b > 0 { ShrStep(n, b - 1); }
    }
  }

  lemma DoubleSum(dsum: int, g: int, apow: int, p: int)
    requires apow == p % WORD && dsum == g % WORD
    ensures dsum * (apow + 1) % WORD == (g + p * g) % WORD
  {
    AddModLeft(p, 1, WORD);
    CongruentProduct(dsum, g, apow + 1, p + 1);
    assert g * (p + 1) == g + p * g;
  }

  lemma DoubleSteps(k: nat, apow: int, dsum: int)
    requires apow == Power(k) % WORD && dsum == Geometric(k) % WORD
    ensures apow * apow % WORD == Power(2 * k) % WORD
    ensures dsum * (apow + 1) % WORD == Geometric(2 * k) % WORD
  {
    hide Power, Geometric;
    PowerAdd(k, k);
    GeometricAdd(k, k);
    CongruentProduct(apow, Power(k), apow, Power(k));
    DoubleSum(dsum, Geometric(k), apow, Power(k));
  }

  lemma OneMoreStep(k: nat, apow: int, dsum: int)
    requires apow == Power(k) % WORD && dsum == Geometric(k) % WORD
    ensures (dsum + apow) % WORD == Geometric(k + 1) % WORD
    ensures apow * RNG_A % WORD == Power(k + 1) % WORD
  {
    CongruentSum(dsum, Geometric(k), apow, Power(k));
    CongruentProduct(apow, Power(k), RNG_A, RNG_A);
    assert Power(k) * RNG_A == RNG_A * Power(k);
  }

  lemma CongruentProduct(a: int, a': int, b: int, b': int)
    requires a % WORD == a' % WORD && b % WORD == b' % WORD
    ensures (a * b) % WORD == (a' * b') % WORD
  {
    MulModLeft(a, b, WORD);
    MulModLeft(a', b, WORD);
    MulModRight(a', b, WORD);
    MulModRight(a', b', WORD);
  }

  lemma CongruentSum(a: int, a': int, b: int, b': int)
    requires a % WORD == a' % WORD && b % WORD == b' % WORD
    ensures (a + b) % WORD == (a' + b') % WORD
  {
    AddModLeft(a, b, WORD);
    AddModLeft(a', b, WORD);
    AddModLeft(b, a', WORD);
    AddModLeft(b', a', WORD);
  }

  /**
   * Jumps the stream ahead. Apow and Dsum are unsigned 64-bit words: after the top bits k of the count
   * they hold A^k and 1 + A + ... + A^(k-1) modulo 2^64. The leading bit is found by comparing with RNG_C,
   * which happens to be one.
   */
  method AdvanceRand64(seed: Int64, count: nat) returns (r: Int64)
    ensures r == Iter64(count, seed)
  {
    if count == 0 {
      return seed;
    }
    TopBitIsTop(count, 0);
    var apow, dsum := RNG_A, RNG_C;
    var bit := 0;
    while Shr(count, bit) != RNG_C
      invariant 0 <= bit <= TopBit(count)
      decreases TopBit(count) - bit
    {
      TopBitIsTop(count, bit);
      bit := bit + 1;
    }
    assert Power(1) == RNG_A * Power(0) && Geometric(1) == Geometric(0) + Power(0);
    bit := bit - 1;
    while bit >= 0
      invariant -1 <= bit
      invariant apow == Power(Shr(count, bit + 1)) % WORD
      invariant dsum == Geometric(Shr(count, bit + 1)) % WORD
    {
      ghost var k := Shr(count, bit + 1);
      DoubleSteps(k, apow, dsum);
      dsum := dsum * (apow + 1) % WORD;
      apow := apow * apow % WORD;
      if Shr(count, bit) % 2 == 1 {
        OneMoreStep(2 * k, apow, dsum);
        dsum := (dsum + apow) % WORD;
        apow := apow * RNG_A % WORD;
      }
      bit := bit - 1;
    }
    Finish(count, seed, apow, dsum);
    r := Signed(seed * apow + dsum * RNG_C);
  }

  lemma Finish(count: nat, seed: Int64, apow: int, dsum: int)
    requires apow == Power(count) % WORD && dsum == Geometric(count) % WORD
    ensures Signed(seed * apow + dsum * RNG_C) == Iter64(count, seed)
  {
    hide Iter64, Power, Geometric, Signed;
    CongruentProduct(seed, seed, apow, Power(count));
    CongruentSum(seed * apow, seed * Power(count), dsum, Geometric(count));
    SignedCongruent(seed * apow + dsum, seed * Power(count) + Geometric(count));
    ClosedForm(count, seed);
  }

  // ----- the draw -----

  /** C's remainder, which takes the sign of the dividend. */
  function TruncMod(x: int, m: int): int
    requires m > 0
  {
    if x >= 0 then x % m else -((-x) % m)
  }

  /**
   * The value reported for the stream value v: negative stream values are negated, which leaves the most
   * negative one as it is.
   */
  function Reduce64(low: int, high: int, v: Int64): int
  {
    var (lo, hi) := if low > high then (high, low) else (low, high);
    var exact: int := v;
    var magnitude: int := if exact < 0 then Signed(-exact) else exact;
    lo + TruncMod(magnitude, hi - lo + 1)
  }

  /**
   * A draw is the lower bound and the remainder of the stream value's magnitude, but for the lowest value, whose sign
   * stays. The bounds may be given either way round.
   */
  lemma ReduceMagnitude(low: int, high: int, v: Int64)
    requires low <= high
    ensures Reduce64(low, high, v) ==
            low + (if v == -HALF then -(HALF % (high - low + 1)) else (if v < 0 then -v else v) % (high - low + 1))
    ensures Reduce64(high, low, v) == Reduce64(low, high, v)
  {
    var exact: int := v;
    if exact < 0 { CongruentClose(Signed(-exact), if v == -HALF then exact else -exact, WORD); }
  }

  lemma ReducedInRange(low: int, high: int, v: Int64)
    ensures var (lo, hi) := if low > high then (high, low) else (low, high);
            lo <= Reduce64(low, high, v) <= hi <==> !(v == -HALF && HALF % (hi - lo + 1) != 0)
  {
    var exact: int := v;
    if -HALF < exact < 0 {
      CongruentClose(Signed(-exact), -exact, WORD);
    }
  }

  /** RNG_A's inverse modulo 2^64, and the value from which a draw moves the stream to -2^63. */
  const RNG_INVERSE := 13877824140714322085
  const BEFORE_LOWEST: Int64 := -4654452103859546277

  /** A stream value before a draw can be told from the one after it. */
  lemma Undo64(seed: Int64)
    ensures (NextRand64(seed) - RNG_C) * RNG_INVERSE % WORD == seed % WORD
  {
    assert RNG_A * RNG_INVERSE == 4787856489426250814 * WORD + 1;
    var next, exact := NextRand64(seed), seed * RNG_A + RNG_C;
    CongruentSum(next, exact, -RNG_C, -RNG_C);
    CongruentProduct(next - RNG_C, seed * RNG_A, RNG_INVERSE, RNG_INVERSE);
    assert seed * RNG_A * RNG_INVERSE == seed + (seed * 4787856489426250814) * WORD;
    ModAddMultiple(seed, seed * 4787856489426250814, WORD);
  }

  /** Different stream values stay different. */
  lemma NextRand64Injective(x: Int64, y: Int64)
    ensures NextRand64(x) == NextRand64(y) <==> x == y
  {
    Undo64(x);
    Undo64(y);
    hide NextRand64;
    if NextRand64(x) == NextRand64(y) { CongruentClose(x, y, WORD); }
  }

  lemma LowestFrom()
    ensures NextRand64(BEFORE_LOWEST) == -HALF
  {
    var x := -4654452103859546277 * RNG_A + RNG_C;
    var q := (x + HALF) / WORD;
    assert x == q * WORD - HALF;
    DivModUnique(x, WORD, q - 1, HALF);
  }

  /**
   * A draw lies between its bounds except from one stream value, when the width of the range is not a power of two:
   * then the negation overflows and the remainder stays negative.
   */
  lemma Draw64InRange(low: int, high: int, seed: Int64)
    ensures var (lo, hi) := if low > high then (high, low) else (low, high);
            lo <= Reduce64(low, high, NextRand64(seed)) <= hi <==>
            !(seed == BEFORE_LOWEST && HALF % (hi - lo + 1) != 0)
  {
    LowestFrom();
    NextRand64Injective(seed, BEFORE_LOWEST);
    hide NextRand64, Reduce64;
    ReducedInRange(low, high, NextRand64(seed));
  }

  /**
   * At every scale the range of the customer keys, a multiple of 150000, is one of them: the customer drawn from that
   * value is none of the customers there are, but zero or negative.
   */
  lemma CustomerEscapes(k: nat)
    requires k >= 1
    ensures Reduce64(1, 150000 * k, NextRand64(BEFORE_LOWEST)) < 1
  {
    var m := 150000 * k;
    LowestFrom();
    assert Signed(HALF) == -HALF;
    assert HALF % m != 0 by {
      if HALF % m == 0 {
        assert HALF == m * (HALF / m) == 3 * (50000 * k * (HALF / m)) by { Triple(k, HALF / m); }
      }
    }
  }

  lemma Triple(k: int, q: int)
    ensures 150000 * k * q == 3 * (50000 * k * q)
  {}
}
