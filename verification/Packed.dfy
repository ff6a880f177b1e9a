/** Packed decimal words: seven four-bit digits each, read and written by masks and shifts (bcd2.c). */
module Packed {
  import opened Keys

  const WORD_LIMIT := 0x1000_0000

  function Nibble(w: nat, k: nat): (d: nat)
    ensures d < 16
  {
    if k == 0 then w % 16 else Nibble(w / 16, k - 1)
  }

  function SetNibble(w: nat, k: nat, d: nat): nat
  {
    if k == 0 then w / 16 * 16 + d else SetNibble(w / 16, k - 1, d) * 16 + w % 16
  }

  lemma {:induction false} NibbleSet(w: nat, k: nat, d: nat, j: nat)
    requires d < 16
    ensures Nibble(SetNibble(w, k, d), j) == if j == k then d else Nibble(w, j)
  {
    if k > 0 && j > 0 { NibbleSet(w / 16, k - 1, d, j - 1); }
  }

  /** 16^n. */
  function P16(n: nat): nat
  {
    if n == 0 then 1 else 16 * P16(n - 1)
  }

  lemma UnitsLimit(w: nat, x: nat, d: nat, p: nat)
    requires w < 16 * p && d < 16
    ensures w / 16 < p
    ensures x < p ==> x * 16 + d < 16 * p
  {}

  lemma {:induction false} SetLimit(w: nat, k: nat, d: nat, n: nat)
    requires d < 16 && k < n && w < P16(n)
    ensures SetNibble(w, k, d) < P16(n)
  {
    var p := P16(n - 1);
    assert P16(n) == 16 * p;
    if k > 0 {
      SetLimit(w / 16, k - 1, d, n - 1) by { UnitsLimit(w, 0, 0, p); }
      UnitsLimit(w, SetNibble(w / 16, k - 1, d), w % 16, p);
    } else {
      UnitsLimit(w, w / 16, d, p);
    }
  }

  // ----- the macros -----

  /** d << 4k. */
  function Shl4(d: nat, k: nat): nat
  {
    if k == 0 then d else 16 * Shl4(d, k - 1)
  }

  /** w >> 4k. */
  function Shr4(w: nat, k: nat): nat
  {
    if k == 0 then w else Shr4(w / 16, k - 1)
  }

  /** Reading digit k of a word: mask the four bits in place, then shift them down. */
  function GetDigit(w: nat, k: nat): nat
  {
    Shr4(BitAnd(w, Shl4(15, k)), k)
  }

  const ALL_DIGITS := 0xFFF_FFFF

  /** n digits of ones except for digit k. */
  function ClearMask(n: nat, k: nat): nat
  {
    if n == 0 then 0 else 16 * (if k == 0 then Ones(n - 1) else ClearMask(n - 1, k - 1)) + (if k == 0 then 0 else 15)
  }

  function Ones(n: nat): nat
  {
    if n == 0 then 0 else 16 * Ones(n - 1) + 15
  }

  /** Writing digit k of a 28-bit word: clear the four bits, then put the new ones in. */
  function PutDigit(w: nat, k: nat, d: nat): nat
  {
    BitOr(BitAnd(w, BitXor(ALL_DIGITS, Shl4(15, k))), Shl4(d, k))
  }

  lemma AndClearTwo(a: nat, b: nat)
    ensures BitAnd(a, 4 * b) == 4 * BitAnd(a / 4, b)
  {
    hide BitAnd;
    AndEven(a, 2 * b);
    AndEven(a / 2, b);
    assert a / 2 / 2 == a / 4;
  }

  lemma AndClear(a: nat, b: nat)
    ensures BitAnd(a, 16 * b) == 16 * BitAnd(a / 16, b)
  {
    hide BitAnd;
    AndClearTwo(a, 4 * b);
    AndClearTwo(a / 4, b);
    assert a / 4 / 4 == a / 16;
  }

  lemma AndKeepTwo(a: nat, b: nat)
    ensures BitAnd(a, 4 * b + 3) == 4 * BitAnd(a / 4, b) + a % 4
  {
    hide BitAnd;
    AndOdd(a, 2 * b + 1);
    AndOdd(a / 2, b);
    assert a / 2 / 2 == a / 4 && a % 4 == 2 * (a / 2 % 2) + a % 2;
  }

  lemma AndKeep(a: nat, b: nat)
    ensures BitAnd(a, 16 * b + 15) == 16 * BitAnd(a / 16, b) + a % 16
  {
    hide BitAnd;
    AndKeepTwo(a, 4 * b + 3);
    AndKeepTwo(a / 4, b);
    assert a / 4 / 4 == a / 16 && a % 16 == 4 * (a / 4 % 4) + a % 4;
  }

  lemma OrEven(a: nat, b: nat, r: nat)
    requires r < 2
    ensures BitOr(2 * a + r, 2 * b) == 2 * BitOr(a, b) + r
  {
    hide BitOr;
    OrBit(2 * a + r, 2 * b);
    assert (2 * a + r) / 2 == a && (2 * a + r) % 2 == r && 2 * b / 2 == b;
  }

  lemma OrHigh(a: nat, b: nat, r: nat)
    requires r < 16
    ensures BitOr(16 * a + r, 16 * b) == 16 * BitOr(a, b) + r
  {
    hide BitOr;
    OrEven(8 * a + r / 2, 8 * b, r % 2);
    OrEven(4 * a + r / 4, 4 * b, r / 2 % 2);
    OrEven(2 * a + r / 8, 2 * b, r / 4 % 2);
    OrEven(a, b, r / 8);
  }

  lemma OrLow(a: nat, d: nat)
    requires d < 16
    ensures BitOr(16 * a, d) == 16 * a + d
  {
    OrLowBit(8 * a, d);
    OrThreeBits(a, d / 2);
  }

  /** The reading macro yields the digit. */
  lemma {:induction false} GetIsNibble(w: nat, k: nat)
    ensures GetDigit(w, k) == Nibble(w, k)
  {
    if k == 0 {
      AndKeep(w, 0);
    } else {
      AndClear(w, Shl4(15, k - 1));
      GetIsNibble(w / 16, k - 1);
    }
  }

  lemma {:induction false} AndOnes(w: nat, n: nat)
    requires w < P16(n)
    ensures BitAnd(w, Ones(n)) == w
  {
    if n > 0 {
      AndKeep(w, Ones(n - 1));
      AndOnes(w / 16, n - 1);
    }
  }

  lemma {:induction false} PutInWord(w: nat, k: nat, d: nat, n: nat)
    requires d < 16 && k < n && w < P16(n)
    ensures BitOr(BitAnd(w, ClearMask(n, k)), Shl4(d, k)) == SetNibble(w, k, d)
  {
    hide BitAnd, BitOr;
    UnitsLimit(w, 0, 0, P16(n - 1));
    if k == 0 {
      AndClear(w, Ones(n - 1));
      AndOnes(w / 16, n - 1);
      OrLow(w / 16, d);
    } else {
      var mask := ClearMask(n - 1, k - 1);
      AndKeep(w, mask);
      OrHigh(BitAnd(w / 16, mask), Shl4(d, k - 1), w % 16);
      PutInWord(w / 16, k - 1, d, n - 1);
    }
  }

  lemma XorOddEven(a: nat, b: nat)
    ensures BitXor(2 * a + 1, 2 * b) == 2 * BitXor(a, b) + 1
    ensures BitXor(2 * a + 1, 2 * b + 1) == 2 * BitXor(a, b)
  {}

  lemma XorDigit(a: nat, b: nat)
    ensures BitXor(16 * a + 15, 16 * b) == 16 * BitXor(a, b) + 15
    ensures BitXor(16 * a + 15, 16 * b + 15) == 16 * BitXor(a, b)
  {
    hide BitXor;
    XorOddEven(8 * a + 7, 8 * b);
    XorOddEven(4 * a + 3, 4 * b);
    XorOddEven(2 * a + 1, 2 * b);
    XorOddEven(a, b);
    XorOddEven(8 * a + 7, 8 * b + 7);
    XorOddEven(4 * a + 3, 4 * b + 3);
    XorOddEven(2 * a + 1, 2 * b + 1);
  }

  lemma {:induction false} XorClears(n: nat, k: nat)
    requires k < n
    ensures BitXor(Ones(n), Shl4(15, k)) == ClearMask(n, k)
  {
    hide BitXor;
    if k == 0 {
      XorDigit(Ones(n - 1), 0);
      XorZero(Ones(n - 1));
    } else {
      XorDigit(Ones(n - 1), Shl4(15, k - 1));
      XorClears(n - 1, k - 1);
    }
  }

  lemma {:induction false} XorZero(a: nat)
    ensures BitXor(a, 0) == a
  {
    if a > 0 { XorZero(a / 2); }
  }

  /** The mask the macro computes, all seven digits but one. */
  lemma ClearMaskIs(k: nat)
    requires k < 7
    ensures BitXor(ALL_DIGITS, Shl4(15, k)) == ClearMask(7, k)
  {
    assert Ones(3) == 0xFFF && Ones(5) == 0xF_FFFF && Ones(7) == ALL_DIGITS;
    hide BitXor, Ones, Shl4, ClearMask;
    XorClears(7, k);
  }

  /** The writing macro replaces the digit and nothing else. */
  lemma PutIsSet(w: nat, k: nat, d: nat)
    requires d < 16 && k < 7 && w < WORD_LIMIT
    ensures PutDigit(w, k, d) == SetNibble(w, k, d) < WORD_LIMIT
  {
    WordLimitIs();
    hide P16, BitXor, BitAnd, BitOr, ClearMask, Shl4;
    ClearMaskIs(k);
    PutInWord(w, k, d, 7);
    SetLimit(w, k, d, 7);
  }

  lemma WordLimitIs()
    ensures P16(7) == WORD_LIMIT
  {
    assert P16(3) == 4096 && P16(4) == 65536 && P16(5) == 1048576 && P16(6) == 16777216;
  }

  /** A word is its digits. */
  lemma {:induction false} NibblesDetermine(w: nat, x: nat, n: nat)
    requires w < P16(n) && x < P16(n) && forall k :: 0 <= k < n ==> Nibble(w, k) == Nibble(x, k)
    ensures w == x
  {
    if n > 0 {
      assert Nibble(w, 0) == Nibble(x, 0);
      forall k | 0 <= k < n - 1 ensures Nibble(w / 16, k) == Nibble(x / 16, k) {
        assert Nibble(w, k + 1) == Nibble(x, k + 1);
      }
      UnitsLimit(w, 0, 0, P16(n - 1));
      UnitsLimit(x, 0, 0, P16(n - 1));
      NibblesDetermine(w / 16, x / 16, n - 1);
    }
  }

  // ----- fourteen digits in two words -----

  /** The seven digits of a word, least first. */
  function Word(w: nat): (s: seq<nat>)
    ensures |s| == 7 && forall k :: 0 <= k < 7 ==> s[k] == Nibble(w, k)
  {
    [Nibble(w, 0), Nibble(w, 1), Nibble(w, 2), Nibble(w, 3), Nibble(w, 4), Nibble(w, 5), Nibble(w, 6)]
  }

  function DigitAt(low: nat, high: nat, k: nat): nat
  {
    if k >= 7 then Nibble(high, k - 7) else Nibble(low, k)
  }

  function All(low: nat, high: nat): (s: seq<nat>)
    ensures |s| == 14 && forall k :: 0 <= k < 14 ==> s[k] == DigitAt(low, high, k)
  {
    Word(low) + Word(high)
  }

  /** Nothing but zeros from digit n on. */
  predicate Filled(w: nat, n: nat)
  {
    w < P16(n)
  }

  lemma ShiftIn(w: nat, n: nat, d: nat)
    requires Filled(w, n) && d < 16
    ensures Filled(w * 16 + d, n + 1)
    ensures Nibble(w * 16 + d, 0) == d && forall k :: 0 <= k ==> Nibble(w * 16 + d, k + 1) == Nibble(w, k)
  {}

  lemma FilledLimit(w: nat)
    requires Filled(w, 7)
    ensures w < WORD_LIMIT
  {
    WordLimitIs();
  }
}
