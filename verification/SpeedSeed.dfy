/** Jumping a 31-bit stream ahead by modular exponentiation (speed_seed.c). */
module SpeedSeed {
  import opened ModArith
  import opened Rnd

  /** n steps of the generator that multiplies by m. */
  function IterBy(m: int, n: nat, z: int): int
  {
    if n == 0 then z else IterBy(m, n - 1, (m * z) % MODULUS)
  }

  /** Halving the step count squares the multiplier. */
  lemma {:induction false} SquareHalves(m: int, n: nat, z: int)
    ensures IterBy(m, 2 * n, z) == IterBy((m * m) % MODULUS, n, z)
  {
    if n > 0 {
      assert (m * ((m * z) % MODULUS)) % MODULUS == ((m * m) % MODULUS * z) % MODULUS by {
        MulModRight(m, m * z, MODULUS);
        assert m * (m * z) == m * m * z;
        MulModLeft(m * m, z, MODULUS);
      }
      SquareHalves(m, n - 1, (m * ((m * z) % MODULUS)) % MODULUS);
    }
  }

  /** Stepping by MULTIPLIER is drawing. */
  lemma {:induction false} IterByIsIter(n: nat, v: Live)
    ensures IterBy(MULTIPLIER, n, v) == Iter(n, v)
  {
    if n > 0 {
      IterByIsIter(n - 1, NextRand(v));
      IterAdd(n - 1, 1, v);
      assert Iter(1, v) == NextRand(Iter(0, v));
    }
  }

  lemma ProductFits(x: int, y: int)
    requires 0 <= x < MODULUS && 0 <= y < MODULUS
    ensures 0 <= x * y < 0x4000_0000_0000_0000
  {
    MulMono(0, x, y);
    MulMono(x, MODULUS - 1, y);
    MulMono(y, MODULUS - 1, MODULUS - 1);
  }

  /** The stream value N draws on; a count that is not positive leaves any value, whatever generator it is from. */
  method NthElement(N: int, startSeed: int) returns (z: int)
    requires N > 0 ==> 0 < startSeed < MODULUS
    ensures z == if N > 0 then Iter(N, startSeed) else startSeed
  {
    var n := N;
    var mult := MULTIPLIER;
    z := startSeed;
    if N > 0 { IterByIsIter(N, startSeed); }
    while n > 0
      invariant N > 0 ==> 0 <= z < MODULUS && 0 <= mult < MODULUS
      invariant if n > 0 then IterBy(mult, n, z) == Iter(N, startSeed) && n <= N
                else z == if N > 0 then Iter(N, startSeed) else startSeed
    {
      ghost var half := n / 2;
      ProductFits(mult, z);
      ProductFits(mult, mult);
      if n % 2 != 0 {
        assert 0 <= mult * z < 0x4000_0000_0000_0000;
        z := (mult * z) % MODULUS;
      }
      SquareHalves(mult, half, z);
      n := n / 2;
      assert 0 <= mult * mult < 0x4000_0000_0000_0000;
      mult := (mult * mult) % MODULUS;
    }
  }
}
