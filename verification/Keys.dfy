/** Keys and prices that are computed, not drawn (build.c, dss.h). */
module Keys {
  import ModArith

  /** Retail price of a part, in cents. */
  function RetailPrice(p: int): int
  {
    90000 + (p / 10) % 20001 + (p % 1000) * 100
  }

  /** Below part 1000 a price is 900 dollars, a dollar for each part and a cent for each ten parts. */
  lemma FirstPrices(p: nat)
    requires p < 1000
    ensures RetailPrice(p) == 90000 + 100 * p + p / 10
  {}

  /** A thousand parts on, a part costs a dollar more, or 200 dollars and a cent less than that if the tenths wrap. */
  lemma PriceStep(p: nat)
    ensures RetailPrice(p + 1000) == RetailPrice(p) + (if p / 10 % 20001 < 19901 then 100 else 100 - 20001)
  {
    var q, r := p / 10, p / 10 % 20001;
    assert (p + 1000) / 10 == q + 100;
    ModArith.ModAddMultiple(p, 1, 1000);
    if r < 19901 {
      ModArith.DivModUnique(q + 100, 20001, q / 20001, r + 100);
    } else {
      ModArith.DivModUnique(q + 100, 20001, q / 20001 + 1, r + 100 - 20001);
    }
  }

  /** The s-th supplier of part p among `total` suppliers. */
  function Bridge(total: int, p: int, s: int): int
    requires total > 0
  {
    (p + s * (total / 4 + (p - 1) / total)) % total + 1
  }

  /** The order key of index i in generation seqNo: three bits shifted out, two put in, the three put back. */
  function MkSparse(i: nat, seqNo: nat): nat
  {
    ((i / 8) * 4 + seqNo) * 8 + i % 8
  }

  // ----- the macro that builds the same keys with bit operations -----

  function BitOr(a: nat, b: nat): nat
    decreases a + b
  {
    if a == 0 && b == 0 then 0
    else 2 * BitOr(a / 2, b / 2) + (if a % 2 == 1 || b % 2 == 1 then 1 else 0)
  }

  function BitAnd(a: nat, b: nat): nat
  {
    if a == 0 || b == 0 then 0
    else 2 * BitAnd(a / 2, b / 2) + (if a % 2 == 1 && b % 2 == 1 then 1 else 0)
  }

  function BitXor(a: nat, b: nat): nat
    decreases a + b
  {
    if a == 0 && b == 0 then 0
    else 2 * BitXor(a / 2, b / 2) + (if a % 2 != b % 2 then 1 else 0)
  }

  function SparseMacro(key: nat, seqNo: nat): nat
  {
    BitOr(BitOr((key / 8) * 4, BitAnd(seqNo, 3)) * 8, BitAnd(key, 7))
  }

  lemma {:induction false} OrZero(a: nat)
    ensures BitOr(a, 0) == a
  {
    if a > 0 { OrZero(a / 2); }
  }

  lemma OrBit(a: nat, b: nat)
    ensures BitOr(a, b) == 2 * BitOr(a / 2, b / 2) + (if a % 2 == 1 || b % 2 == 1 then 1 else 0)
  {}

  lemma OrLowBit(a: nat, b: nat)
    ensures BitOr(2 * a, b) == 2 * BitOr(a, b / 2) + b % 2
  {
    hide BitOr;
    OrBit(2 * a, b);
    assert 2 * a / 2 == a;
  }

  lemma OrTwoBits(a: nat, b: nat)
    requires b < 4
    ensures BitOr(a * 4, b) == a * 4 + b
  {
    hide BitOr;
    OrLowBit(2 * a, b);
    OrLowBit(a, b / 2);
    assert b / 2 / 2 == 0 && b == 2 * (b / 2) + b % 2;
    OrZero(a);
  }

  lemma OrThreeBits(a: nat, b: nat)
    requires b < 8
    ensures BitOr(a * 8, b) == a * 8 + b
  {
    hide BitOr;
    OrLowBit(4 * a, b);
    OrTwoBits(a, b / 2);
    assert 2 * (a * 4) == a * 8;
  }

  lemma AndBit(a: nat, b: nat)
    ensures BitAnd(a, b) == 2 * BitAnd(a / 2, b / 2) + (if a % 2 == 1 && b % 2 == 1 then 1 else 0)
  {}

  lemma AndEven(a: nat, b: nat)
    ensures BitAnd(a, 2 * b) == 2 * BitAnd(a / 2, b)
  {
    hide BitAnd;
    AndBit(a, 2 * b);
    assert 2 * b / 2 == b;
  }

  lemma AndOdd(a: nat, b: nat)
    ensures BitAnd(a, 2 * b + 1) == 2 * BitAnd(a / 2, b) + a % 2
  {
    hide BitAnd;
    AndBit(a, 2 * b + 1);
    assert (2 * b + 1) / 2 == b && (2 * b + 1) % 2 == 1;
  }

  lemma AndNothing(a: nat)
    ensures BitAnd(a, 0) == 0
  {}

  lemma LastBits(a: nat)
    ensures a % 4 == 2 * (a / 2 % 2) + a % 2
    ensures a % 8 == 2 * (a / 2 % 4) + a % 2
  {
    var h, b := a / 2, a % 2;
    ModArith.DivModUnique(a, 4, h / 2, 2 * (h % 2) + b);
    ModArith.DivModUnique(a, 8, h / 4, 2 * (h % 4) + b);
  }

  lemma AndThree(a: nat)
    ensures BitAnd(a, 3) == a % 4
  {
    hide BitAnd;
    AndOdd(a, 1);
    AndOdd(a / 2, 0);
    AndNothing(a / 2 / 2);
    LastBits(a);
  }

  lemma AndSeven(a: nat)
    ensures BitAnd(a, 7) == a % 8
  {
    hide BitAnd;
    AndOdd(a, 3);
    AndThree(a / 2);
    LastBits(a);
  }

  /** The macro masks the generation to two bits and otherwise agrees with the function. */
  lemma MacroIsMkSparse(key: nat, seqNo: nat)
    ensures SparseMacro(key, seqNo) == MkSparse(key, seqNo % 4)
  {
    AndThree(seqNo);
    AndSeven(key);
    OrTwoBits(key / 8, seqNo % 4);
    OrThreeBits((key / 8) * 4 + seqNo % 4, key % 8);
  }

  /** For the generations that fit in the two bits, a key determines its index and its generation. */
  lemma SparseInjective(i: nat, s: nat, j: nat, t: nat)
    requires s <= 3 && t <= 3
    ensures MkSparse(i, s) == MkSparse(j, t) <==> i == j && s == t
  {
    SparseParts(i, s);
    SparseParts(j, t);
    hide MkSparse;
    if MkSparse(i, s) == MkSparse(j, t) { assert i / 8 * 8 + i % 8 == i && j / 8 * 8 + j % 8 == j; }
  }

  /** What the bits of a key are. */
  lemma SparseParts(i: nat, s: nat)
    requires s <= 3
    ensures var k := MkSparse(i, s); k % 8 == i % 8 && k / 8 % 4 == s && k / 8 / 4 == i / 8
  {
    var high := i / 8 * 4 + s;
    ModArith.DivModUnique(high * 8 + i % 8, 8, high, i % 8);
    ModArith.DivModUnique(high, 4, i / 8, s);
  }

  /** A fifth generation would collide with the first one of the index eight further on. */
  lemma SparseCollides(i: nat, s: nat)
    ensures MkSparse(i, s + 4) == MkSparse(i + 8, s)
  {
    ModArith.ModAddMultiple(i, 1, 8);
    assert (i + 1 * 8) / 8 == i / 8 + 1;
  }
}
