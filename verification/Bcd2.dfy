/** Fourteen-digit decimal arithmetic on two packed words (bcd2.c). */
module Bcd2 {
  import opened ModArith
  import opened Packed

  const DIGITS := 14

  /** 10 to the k-th power. */
  function P10(k: nat): (p: nat)
    ensures p > 0
  {
    if k == 0 then 1 else 10 * P10(k - 1)
  }

  /** The decimal number whose digit k, counted from the right, is s[k], for the first n digits. */
  function Value(s: seq<nat>, n: nat): nat
    requires n <= |s|
  {
    if n == 0 then 0 else Value(s, n - 1) + s[n - 1] * P10(n - 1)
  }

  ghost predicate Decimal(s: seq<nat>)
  {
    |s| == DIGITS && forall k :: 0 <= k < DIGITS ==> s[k] < 10
  }

  lemma {:induction false} ValueBound(s: seq<nat>, n: nat)
    requires n <= |s| && forall k :: 0 <= k < n ==> s[k] < 10
    ensures Value(s, n) < P10(n)
  {
    if n > 0 {
      ValueBound(s, n - 1);
      MulMono(s[n - 1], 9, P10(n - 1));
    }
  }

  /** Only the first n digits matter. */
  lemma {:induction false} ValuePrefix(s: seq<nat>, t: seq<nat>, n: nat)
    requires n <= |s| && n <= |t| && forall k :: 0 <= k < n ==> s[k] == t[k]
    ensures Value(s, n) == Value(t, n)
  {
    if n > 0 { ValuePrefix(s, t, n - 1); }
  }

  /** Digit k of a number. */
  function DigitOf(x: nat, k: nat): (d: nat)
    ensures d < 10
  {
    if k == 0 then x % 10 else DigitOf(x / 10, k - 1)
  }

  function Chop(x: nat, k: nat): nat
  {
    if k == 0 then x else Chop(x / 10, k - 1)
  }

  lemma {:induction false} ChopStep(x: nat, k: nat)
    ensures Chop(x, k) % 10 == DigitOf(x, k) && Chop(x, k) / 10 == Chop(x, k + 1)
  {
    if k > 0 { ChopStep(x / 10, k - 1); }
  }

  lemma ChopNothing(x: nat)
    ensures Chop(x, 0) == x
  {}

  lemma TakeDigit(c: nat, q: nat, d: nat, p: nat)
    requires c % 10 == d && c / 10 == q
    ensures c * p == d * p + q * (10 * p)
  {
    assert (10 * q + d) * p == q * (10 * p) + d * p;
  }

  lemma {:induction false} DigitsMakeValue(x: nat, s: seq<nat>, n: nat)
    requires n <= |s| && forall k :: 0 <= k < n ==> s[k] == DigitOf(x, k)
    ensures Value(s, n) + Chop(x, n) * P10(n) == x
  {
    hide Chop, DigitOf;
    if n == 0 {
      ChopNothing(x);
    } else {
      hide P10, Value;
      DigitsMakeValue(x, s, n - 1);
      ChopStep(x, n - 1);
      ValueNext(s, n - 1);
      TakeDigit(Chop(x, n - 1), Chop(x, n), s[n - 1], P10(n - 1));
    }
  }

  lemma {:induction false} ChopSmall(x: nat, n: nat)
    requires x < P10(n)
    ensures Chop(x, n) == 0
  {
    if n > 0 { ChopSmall(x / 10, n - 1); }
  }

  /** A number of at most fourteen digits is the value of its digits. */
  lemma DigitsOfNumber(x: nat, s: seq<nat>)
    requires x < P10(DIGITS) && |s| == DIGITS && forall k :: 0 <= k < DIGITS ==> s[k] == DigitOf(x, k)
    ensures Value(s, DIGITS) == x && Decimal(s)
  {
    hide P10, Value, DigitOf, Chop;
    DigitsMakeValue(x, s, DIGITS);
    ChopSmall(x, DIGITS);
  }

  /** The fourteen digits of a number. */
  function DigitSeq(x: nat): (s: seq<nat>)
    ensures |s| == DIGITS && forall k :: 0 <= k < DIGITS ==> s[k] == DigitOf(x, k)
  {
    seq(DIGITS, (k: nat) => DigitOf(x, k))
  }

  // ----- conversion -----

  /** Packs a number, digit by digit from the left: the first seven digits go to the high word. */
  method BinBcd2(binary: nat) returns (low: nat, high: nat)
    requires binary < P10(DIGITS)
    ensures low < WORD_LIMIT && high < WORD_LIMIT
    ensures forall k :: 0 <= k < DIGITS ==> DigitAt(low, high, k) == DigitOf(binary, k)
    ensures Decimal(All(low, high)) && Value(All(low, high), DIGITS) == binary
  {
    hide P10, DigitOf, Value;
    low, high := 0, 0;
    var count := 13;
    while count >= 7
      invariant 6 <= count <= 13
      invariant Filled(high, 13 - count)
      invariant forall k :: 0 <= k < 13 - count ==> Nibble(high, k) == DigitOf(binary, count + 1 + k)
    {
      var d := DigitOf(binary, count);
      ShiftIn(high, 13 - count, d);
      high := high * 16 + d;
      count := count - 1;
    }
    while count >= 0
      invariant -1 <= count <= 6
      invariant Filled(low, 6 - count)
      invariant forall k :: 0 <= k < 6 - count ==> Nibble(low, k) == DigitOf(binary, count + 1 + k)
    {
      var d := DigitOf(binary, count);
      ShiftIn(low, 6 - count, d);
      low := low * 16 + d;
      count := count - 1;
    }
    FilledLimit(low);
    FilledLimit(high);
    DigitsOfNumber(binary, All(low, high));
  }

  /** The decimal number in one packed word, from its leading digit down. */
  method Bcd2Bin(bcd: nat) returns (dest: nat)
    requires bcd < WORD_LIMIT
    ensures dest == Value(Word(bcd), 7)
  {
    hide Nibble, GetDigit, Value, P10;
    dest := 0;
    var count := 6;
    while count >= 0
      invariant -1 <= count <= 6
      invariant dest * P10(count + 1) + Value(Word(bcd), count + 1) == Value(Word(bcd), 7)
    {
      GetIsNibble(bcd, count);
      var d := GetDigit(bcd, count);
      UnpackStep(Word(bcd), count, dest);
      dest := dest * 10 + d;
      count := count - 1;
    }
    UnpackEnd(Word(bcd), dest);
  }

  lemma UnpackStep(s: seq<nat>, k: nat, dest: nat)
    requires k < |s|
    ensures dest * P10(k + 1) + Value(s, k + 1) == (dest * 10 + s[k]) * P10(k) + Value(s, k)
  {
    var p := P10(k);
    assert (dest * 10 + s[k]) * p == dest * (10 * p) + s[k] * p;
  }

  lemma UnpackEnd(s: seq<nat>, dest: nat)
    ensures dest * P10(0) + Value(s, 0) == dest
  {}

  /** The two words make up the number between them. */
  lemma WordsMakeValue(low: nat, high: nat)
    requires Decimal(All(low, high))
    ensures Value(Word(high), 7) * 10000000 + Value(Word(low), 7) == Value(All(low, high), DIGITS)
  {
    hide Nibble;
    ValuePrefix(All(low, high), Word(low), 7);
    UpperHalf(low, high, 7);
    assert P10(7) == 10000000;
  }

  /** Unpacking both words of a packed number gives the number back. */
  method PackThenUnpack(binary: nat) returns (r: nat)
    requires binary < P10(DIGITS)
    ensures r == binary
  {
    hide P10, DigitOf, Value, Nibble;
    var low, high := BinBcd2(binary);
    var upper := Bcd2Bin(high);
    r := Bcd2Bin(low);
    WordsMakeValue(low, high);
    r := upper * 10000000 + r;
  }

  /** Packing the number unpacked from two decimal words gives the words back. */
  method UnpackThenPack(low: nat, high: nat) returns (low': nat, high': nat)
    requires low < WORD_LIMIT && high < WORD_LIMIT && Decimal(All(low, high))
    ensures low' == low && high' == high
  {
    hide P10, DigitOf, Value, Nibble;
    var upper := Bcd2Bin(high);
    var lower := Bcd2Bin(low);
    WordsMakeValue(low, high);
    ValueBound(All(low, high), DIGITS);
    low', high' := BinBcd2(upper * 10000000 + lower);
    ValueDetermines(All(low, high), All(low', high'), DIGITS);
    SameWords(low, high, low', high');
  }

  lemma SameWords(low: nat, high: nat, low': nat, high': nat)
    requires low < WORD_LIMIT && high < WORD_LIMIT && low' < WORD_LIMIT && high' < WORD_LIMIT
    requires forall k :: 0 <= k < DIGITS ==> All(low, high)[k] == All(low', high')[k]
    ensures low == low' && high == high'
  {
    hide Nibble;
    WordLimitIs();
    forall k | 0 <= k < 7 ensures Nibble(low, k) == Nibble(low', k) && Nibble(high, k) == Nibble(high', k) {
      assert All(low, high)[k] == All(low', high')[k] && All(low, high)[k + 7] == All(low', high')[k + 7];
    }
    hide P16;
    NibblesDetermine(low, low', 7);
    NibblesDetermine(high, high', 7);
  }

  lemma Distribute(x: int, d: int, p: int, q: int)
    ensures (x + d * p) * q == x * q + d * (q * p)
  {
    assert d * p * q == d * (q * p);
  }

  lemma {:induction false} UpperHalf(low: nat, high: nat, n: nat)
    requires n <= 7
    ensures Value(All(low, high), 7 + n) == Value(All(low, high), 7) + Value(Word(high), n) * P10(7)
  {
    hide Nibble;
    if n > 0 {
      UpperHalf(low, high, n - 1);
      PowerSplit(7, n - 1);
      var d, x := Word(high)[n - 1], Value(Word(high), n - 1);
      assert All(low, high)[7 + n - 1] == d;
      Distribute(x, d, P10(n - 1), P10(7));
    }
  }

  lemma {:induction false} PowerSplit(a: nat, b: nat)
    ensures P10(a + b) == P10(a) * P10(b)
  {
    if b > 0 { PowerSplit(a, b - 1); }
  }

  /** Two packed numbers with the same value are the same digits. */
  lemma {:induction false} ValueDetermines(s: seq<nat>, t: seq<nat>, n: nat)
    requires n <= |s| && n <= |t| && forall k :: 0 <= k < n ==> s[k] < 10 && t[k] < 10
    ensures Value(s, n) == Value(t, n) <==> forall k :: 0 <= k < n ==> s[k] == t[k]
  {
    if n > 0 {
      ValueDetermines(s, t, n - 1);
      ValueBound(s, n - 1);
      ValueBound(t, n - 1);
      LeadingDigit(Value(s, n - 1), s[n - 1], Value(t, n - 1), t[n - 1], P10(n - 1));
    }
  }

  lemma LeadingDigit(x: nat, d: nat, y: nat, e: nat, p: nat)
    requires x < p && y < p
    ensures x + d * p == y + e * p <==> x == y && d == e
  {
    if d < e { MulMono(d + 1, e, p); }
    if e < d { MulMono(e + 1, d, p); }
  }

  // ----- arithmetic lemmas -----

  /** Replacing a digit shifts the value by the difference at its place. */
  lemma {:induction false} ValueUpdate(s: seq<nat>, k: nat, d: nat, n: nat)
    requires k < n <= |s|
    ensures Value(s[k := d], n) == Value(s, n) + (d - s[k]) * P10(k)
  {
    if k == n - 1 {
      ValuePrefix(s[k := d], s, k);
      assert (d - s[k]) * P10(k) == d * P10(k) - s[k] * P10(k);
    } else {
      ValueUpdate(s, k, d, n - 1);
    }
  }

  /** One digit and the carry it hands on make up what came in. */
  lemma CarryStep(res: nat, p: nat)
    ensures res % 10 * p + res / 10 * (10 * p) == res * p
  {
    assert (res % 10 + 10 * (res / 10)) * p == res % 10 * p + 10 * (res / 10) * p;
    assert res / 10 * (10 * p) == 10 * (res / 10) * p;
  }

  lemma {:induction false} ValueSplit(s: seq<nat>, n: nat, m: nat) returns (rest: nat)
    requires n <= m <= |s|
    ensures Value(s, m) == Value(s, n) + rest * P10(n)
    decreases m
  {
    if n == m {
      rest := 0;
    } else {
      var r := ValueSplit(s, n, m - 1);
      PowerSplit(n, m - 1 - n);
      var q := P10(m - 1 - n);
      rest := r + s[m - 1] * q;
      assert (r + s[m - 1] * q) * P10(n) == r * P10(n) + s[m - 1] * (P10(n) * q) by {
        Distribute(r, s[m - 1], q, P10(n));
      }
    }
  }

  // ----- the number, updated in place -----

  class Number {
    var low: nat
    var high: nat

    ghost function Digits(): (s: seq<nat>)
      reads this
      ensures |s| == DIGITS
    {
      All(low, high)
    }

    ghost predicate Valid()
      reads this
    {
      low < WORD_LIMIT && high < WORD_LIMIT && Decimal(Digits())
    }

    ghost function Amount(): nat
      reads this
    {
      Value(Digits(), DIGITS)
    }

    constructor (binary: nat)
      requires binary < P10(DIGITS)
      ensures Valid() && Amount() == binary
    {
      var lo, hi := BinBcd2(binary);
      low, high := lo, hi;
    }

    method Get(k: nat) returns (d: nat)
      requires Valid() && k < DIGITS
      ensures d == Digits()[k] < 10
    {
      d := Read(low, high, k);
    }

    static method Read(low: nat, high: nat, k: nat) returns (d: nat)
      requires k < DIGITS
      ensures d == All(low, high)[k]
    {
      if k >= 7 {
        GetIsNibble(high, k - 7);
        d := GetDigit(high, k - 7);
      } else {
        GetIsNibble(low, k);
        d := GetDigit(low, k);
      }
    }

    method Set(value: nat, k: nat)
      requires Valid() && k < DIGITS && value < 10
      modifies this
      ensures Valid() && Digits() == old(Digits())[k := value]
    {
      hide Nibble, PutDigit, SetNibble;
      if k >= 7 {
        PutIsSet(high, k - 7, value);
        forall j | 0 <= j < 7
          ensures Nibble(PutDigit(high, k - 7, value), j) == if j == k - 7 then value else Nibble(high, j)
        {
          NibbleSet(high, k - 7, value, j);
        }
        high := PutDigit(high, k - 7, value);
      } else {
        PutIsSet(low, k, value);
        forall j | 0 <= j < 7 ensures Nibble(PutDigit(low, k, value), j) == if j == k then value else Nibble(low, j) {
          NibbleSet(low, k, value, j);
        }
        low := PutDigit(low, k, value);
      }
      assert Digits() == old(Digits())[k := value];
    }

    /** Adds; the fourteen digits wrap, and the carry out of them is returned. */
    method Add(addend: nat) returns (carry: nat)
      requires Valid() && addend < P10(DIGITS)
      modifies this
      ensures Valid() && old(Amount()) + addend == Amount() + carry * P10(DIGITS)
    {
      hide P10, Value, Nibble, DigitOf;
      var tmpLo, tmpHi := BinBcd2(addend);
      ghost var was, t := Digits(), All(tmpLo, tmpHi);
      carry := 0;
      var digit := 0;
      AddNothing(was, t);
      while digit < DIGITS
        invariant 0 <= digit <= DIGITS && Valid() && carry <= 1
        invariant forall k :: digit <= k < DIGITS ==> Digits()[k] == was[k]
        invariant Value(Digits(), digit) + carry * P10(digit) == Value(was, digit) + Value(t, digit)
      {
        var res := Get(digit);
        var d := Read(tmpLo, tmpHi, digit);
        AddStep(Digits(), was, t, digit, carry);
        res := res + d + carry;
        carry := res / 10;
        res := res % 10;
        Set(res, digit);
        digit := digit + 1;
      }
    }

    /**
     * Subtracts digit by digit with a borrow that, once taken, is never cleared. The result is short of the true
     * difference by what the stale borrows cost; it is right exactly when no digit exceeds the subtrahend's above one
     * that falls short of it, for then the borrow is still due at every later digit.
     */
    method Sub(subend: nat) returns (borrow: nat)
      requires Valid() && subend < P10(DIGITS)
      modifies this
      ensures Valid()
      ensures var was, t := old(Digits()), DigitSeq(subend);
              old(Amount()) - subend == Amount() - borrow * P10(DIGITS) + Lost(was, t, DIGITS) &&
              borrow == if Short(was, t, DIGITS) then 1 else 0
      ensures old(Amount()) - subend == Amount() - borrow * P10(DIGITS) <==>
              NoneAboveShort(old(Digits()), DigitSeq(subend), DIGITS)
    {
      hide P10, Value, Nibble, DigitOf;
      var tmpLo, tmpHi := BinBcd2(subend);
      ghost var was, t := Digits(), All(tmpLo, tmpHi);
      assert t == DigitSeq(subend);
      hide DigitSeq, Lost, Short;
      hide SubState, NoneAboveShort;
      SubNothing(was, t);
      borrow := 0;
      var digit := 0;
      while digit < DIGITS
        invariant 0 <= digit <= DIGITS && Valid() && SubState(Digits(), was, t, digit, borrow)
      {
        var d := Get(digit);
        var e := Read(tmpLo, tmpHi, digit);
        SubStep(Digits(), was, t, digit, borrow);
        var res := d - e - borrow;
        if res < 0 {
          res := res + 10;
          borrow := 1;
        }
        Set(res, digit);
        digit := digit + 1;
      }
      SubDone(Digits(), was, t, borrow);
    }

    /**
     * Multiplies modulo 10^14. The carry returned is only that of the last row: the leading digit of the multiplier
     * times the number, added to the leading digit of the product with the rest of the multiplier.
     */
    method Mul(multiplier: nat) returns (carry: nat)
      requires Valid() && multiplier < P10(DIGITS)
      modifies this
      ensures Valid() && Amount() == old(Amount()) * multiplier % P10(DIGITS)
      ensures var (a, rest) := (old(Amount()), multiplier % P10(13));
              carry == (multiplier / P10(13) * a + rest * a % P10(DIGITS) / P10(13)) / P10(DIGITS)
    {
      hide P10, Value, Nibble, DigitOf, RowAdded, RowCarry;
      var tmpLo, tmpHi := low, high;
      ghost var t := Digits();
      var mLo, mHi := BinBcd2(multiplier);
      ghost var m := All(mLo, mHi);
      Clear();
      carry := 0;
      var ldigit := 0;
      MulNothing(m, t);
      while ldigit < DIGITS
        invariant 0 <= ldigit <= DIGITS && Valid()
        invariant Amount() % P10(DIGITS) == Value(m, ldigit) * Value(t, DIGITS) % P10(DIGITS)
        invariant ldigit > 0 ==>
                    carry == RowCarry(t, Value(m, ldigit - 1) * Value(t, DIGITS) % P10(DIGITS), ldigit - 1,
                                      m[ldigit - 1])
      {
        var m1 := Read(mLo, mHi, ldigit);
        ghost var before := Amount();
        ValueBound(Digits(), DIGITS);
        DivModUnique(before, P10(DIGITS), 0, before);
        carry := MulRow(tmpLo, tmpHi, ldigit, m1);
        MulStep(m, t, ldigit, before, Amount());
        ldigit := ldigit + 1;
      }
      ValueBound(Digits(), DIGITS);
      DivModUnique(Amount(), P10(DIGITS), 0, Amount());
      assert Value(t, DIGITS) * multiplier == multiplier * Value(t, DIGITS);
      LastRowCarry(m, t, multiplier);
    }

    method Clear()
      modifies this
      ensures Valid() && Digits() == seq(DIGITS, (k: nat) => 0) && Amount() == 0
    {
      low, high := 0, 0;
      ZeroDigits(0);
    }

    static lemma {:induction false} ZeroDigits(k: nat)
      ensures forall j :: 0 <= j ==> Nibble(0, j) == 0
      ensures Value(seq(DIGITS, (k: nat) => 0), DIGITS) == 0
    {
      forall j: nat ensures Nibble(0, j) == 0 { ZeroNibble(j); }
      ZeroValue(DIGITS);
    }

    /** Adds a digit of the multiplier times the multiplicand, in its place; digits past the fourteenth are dropped. */
    method MulRow(tmpLo: nat, tmpHi: nat, ldigit: nat, m1: nat) returns (carry: nat)
      requires Valid() && Decimal(All(tmpLo, tmpHi)) && ldigit < DIGITS && m1 < 10
      modifies this
      ensures Valid()
      ensures RowAdded(old(Amount()), Amount(), All(tmpLo, tmpHi), ldigit, m1)
      ensures carry == RowCarry(All(tmpLo, tmpHi), old(Amount()), ldigit, m1)
    {
      hide P10, Value, Nibble, RowState, RowAdded, RowCarry, Decimal;
      ghost var t, b := All(tmpLo, tmpHi), Digits();
      ghost var top: nat := 0;
      carry := 0;
      var udigit := 0;
      RowNothing(t, b, ldigit, m1);
      while udigit < DIGITS
        invariant 0 <= udigit <= DIGITS && Valid() && carry < 10
        invariant RowState(Digits(), carry, top, t, b, ldigit, udigit, m1)
      {
        carry, top := MulDigit(tmpLo, tmpHi, ldigit, udigit, m1, carry, top, b);
        udigit := udigit + 1;
      }
      RowDone(Digits(), carry, top, t, b, ldigit, m1);
    }

    /** One turn of the inner loop: a digit of the multiplicand, at its place. */
    method MulDigit(tmpLo: nat, tmpHi: nat, ldigit: nat, udigit: nat, m1: nat, before: nat, ghost top: nat,
                    ghost b: seq<nat>) returns (carry: nat, ghost top': nat)
      requires Valid() && Decimal(All(tmpLo, tmpHi)) && |b| == DIGITS
      requires ldigit < DIGITS && udigit < DIGITS && m1 < 10 && before < 10
      requires RowState(Digits(), before, top, All(tmpLo, tmpHi), b, ldigit, udigit, m1)
      modifies this
      ensures Valid() && carry < 10
      ensures RowState(Digits(), carry, top', All(tmpLo, tmpHi), b, ldigit, udigit + 1, m1)
    {
      hide P10, Value, Nibble, RowState, Decimal, All;
      ghost var now, t := Digits(), All(tmpLo, tmpHi);
      var res := Part(tmpLo, tmpHi, udigit, m1, before);
      if udigit + ldigit < DIGITS {
        carry := AddAt(udigit + ldigit, res);
        top' := carry;
      } else {
        carry := res / 10;
        top' := top;
      }
      RowStep(now, Digits(), before, carry, top, top', t, b, ldigit, udigit, m1);
    }

    /** The product of two digits with what was carried: at most two digits itself. */
    static method Part(low: nat, high: nat, k: nat, m1: nat, before: nat) returns (res: nat)
      requires k < DIGITS && Decimal(All(low, high)) && m1 < 10 && before < 10
      ensures res == m1 * All(low, high)[k] + before && res < 91
    {
      hide P10, Value, Nibble, Decimal, All;
      var m2 := Read(low, high, k);
      DecimalAt(All(low, high), k);
      SmallProduct(m1, m2);
      res := m1 * m2;
      res := res + before;
    }

    /** Adds to one digit and hands on the carry. */
    method AddAt(place: nat, part: nat) returns (carry: nat)
      requires Valid() && place < DIGITS && part < 91
      modifies this
      ensures Valid() && carry < 10
      ensures Digits() == old(Digits())[place := (part + old(Digits())[place]) % 10]
      ensures carry == (part + old(Digits())[place]) / 10
    {
      hide P10, Value, Nibble, All;
      carry := Get(place);
      var res := part + carry;
      Set(res % 10, place);
      carry := res / 10;
    }

    /** Divides; the remainder is returned. */
    method Div(divisor: nat) returns (carry: nat)
      requires Valid() && divisor > 0
      modifies this
      ensures Valid() && old(Amount()) == Amount() * divisor + carry && carry < divisor
    {
      hide P10, Value, Nibble;
      carry := 0;
      var tmpLo, tmpHi := low, high;
      ghost var t := Digits();
      Clear();
      var digit := 13;
      while digit >= 0
        invariant -1 <= digit <= 13 && Valid() && carry < divisor
        invariant Upper(t, digit + 1) == Upper(Digits(), digit + 1) * divisor + carry
      {
        var d1 := Read(tmpLo, tmpHi, digit);
        d1 := d1 + 10 * carry;
        var res := d1 / divisor;
        DivStep(Digits(), t, digit, divisor, carry);
        carry := d1 % divisor;
        Set(res, digit);
        digit := digit - 1;
      }
      UpperIsValue(t, 0);
      UpperIsValue(Digits(), 0);
    }
  }

  // ----- steps of the loops -----

  lemma AddNothing(s: seq<nat>, t: seq<nat>)
    ensures Value(s, 0) == 0 && Value(t, 0) == 0
  {}

  lemma SubNothing(s: seq<nat>, t: seq<nat>)
    requires |s| == |t| == DIGITS
    ensures SubState(s, s, t, 0, 0)
  {}

  lemma ValueNext(s: seq<nat>, k: nat)
    requires k < |s|
    ensures Value(s, k + 1) == Value(s, k) + s[k] * P10(k) && P10(k + 1) == 10 * P10(k)
  {}

  lemma AddArithmetic(x: int, y: int, z: int, c: nat, a: nat, b: nat, p: nat)
    requires x + c * p == y + z
    ensures var res := a + b + c;
            x + res % 10 * p + res / 10 * (10 * p) == (y + a * p) + (z + b * p)
  {
    CarryStep(a + b + c, p);
    assert (a + b + c) * p == a * p + b * p + c * p;
  }

  lemma AddStep(now: seq<nat>, was: seq<nat>, t: seq<nat>, k: nat, carry: nat)
    requires |now| == |was| == |t| == DIGITS && k < DIGITS && now[k] == was[k]
    requires Value(now, k) + carry * P10(k) == Value(was, k) + Value(t, k)
    ensures var res := was[k] + t[k] + carry;
            Value(now[k := res % 10], k + 1) + res / 10 * P10(k + 1) == Value(was, k + 1) + Value(t, k + 1)
  {
    var p := P10(k);
    var d := (was[k] + t[k] + carry) % 10;
    ValuePrefix(now[k := d], now, k);
    ValueNext(now[k := d], k);
    ValueNext(was, k);
    ValueNext(t, k);
    hide Value, P10;
    AddArithmetic(Value(now, k), Value(was, k), Value(t, k), carry, was[k], t[k], p);
  }

  /** Whether a digit below k of s falls short of that of t, so that a borrow has been taken. */
  predicate Short(s: seq<nat>, t: seq<nat>, k: nat)
    requires k <= |s| && k <= |t|
  {
    k > 0 && (Short(s, t, k - 1) || s[k - 1] < t[k - 1])
  }

  /** What stale borrows cost: ten units at every place that exceeds the subtrahend's after a borrow was taken. */
  function Lost(s: seq<nat>, t: seq<nat>, k: nat): nat
    requires k <= |s| && k <= |t|
  {
    if k == 0 then 0 else Lost(s, t, k - 1) + (if Short(s, t, k - 1) && s[k - 1] > t[k - 1] then P10(k) else 0)
  }

  lemma SubArithmetic(x: int, y: int, z: int, b: nat, a: nat, e: nat, p: nat, lost: int)
    requires x - b * p + lost == y - z && b <= 1
    ensures var res := a - e - b;
            var d := if res < 0 then res + 10 else res;
            var b' := if res < 0 then 1 else b;
            x + d * p - b' * (10 * p) + lost + (if b == 1 && a > e then 10 * p else 0) == (y + a * p) - (z + e * p)
  {
    var res := a - e - b;
    assert res * p == a * p - e * p - b * p;
    assert (res + 10) * p == res * p + 10 * p;
  }

  /** k digits have been subtracted. */
  ghost predicate SubState(now: seq<nat>, was: seq<nat>, t: seq<nat>, k: nat, borrow: nat)
    requires |now| == |was| == |t| == DIGITS && k <= DIGITS
  {
    borrow == (if Short(was, t, k) then 1 else 0) && (forall j :: k <= j < DIGITS ==> now[j] == was[j]) &&
    Value(now, k) - borrow * P10(k) + Lost(was, t, k) == Value(was, k) - Value(t, k)
  }

  lemma SubStep(now: seq<nat>, was: seq<nat>, t: seq<nat>, k: nat, borrow: nat)
    requires |now| == |was| == |t| == DIGITS && k < DIGITS && Decimal(was) && Decimal(t)
    requires SubState(now, was, t, k, borrow)
    ensures var res := now[k] - t[k] - borrow;
            var d := if res < 0 then res + 10 else res;
            var b := if res < 0 then 1 else borrow;
            0 <= d < 10 && SubState(now[k := d], was, t, k + 1, b)
  {
    var p := P10(k);
    var res := was[k] - t[k] - borrow;
    var d := if res < 0 then res + 10 else res;
    ValuePrefix(now[k := d], now, k);
    ValueNext(now[k := d], k);
    ValueNext(was, k);
    ValueNext(t, k);
    hide Value, P10;
    SubArithmetic(Value(now, k), Value(was, k), Value(t, k), borrow, was[k], t[k], p, Lost(was, t, k));
  }

  lemma SubDone(now: seq<nat>, was: seq<nat>, t: seq<nat>, borrow: nat)
    requires |now| == |was| == |t| == DIGITS && SubState(now, was, t, DIGITS, borrow)
    ensures var short := Value(was, DIGITS) - Value(t, DIGITS) - (Value(now, DIGITS) - borrow * P10(DIGITS));
            short == Lost(was, t, DIGITS) && (short == 0 <==> NoneAboveShort(was, t, DIGITS))
    ensures borrow == if Short(was, t, DIGITS) then 1 else 0
  {
    SubExactWhen(was, t, DIGITS);
    hide Value, P10, Lost, Short, NoneAboveShort;
  }

  /** No digit of s exceeds that of t above one that falls short of it. */
  predicate NoneAboveShort(s: seq<nat>, t: seq<nat>, n: nat)
    requires n <= |s| && n <= |t|
  {
    forall i, k :: 0 <= i < k < n ==> !(s[i] < t[i] && s[k] > t[k])
  }

  /**
   * Subtraction is right exactly when no digit exceeds the subtrahend's above one that falls short of it: then the
   * borrow that is never cleared is still due at every later digit.
   */
  lemma {:induction false} SubExactWhen(s: seq<nat>, t: seq<nat>, n: nat)
    requires n <= |s| && n <= |t|
    ensures Lost(s, t, n) == 0 <==> NoneAboveShort(s, t, n)
    ensures Short(s, t, n) <==> exists i :: 0 <= i < n && s[i] < t[i]
  {
    if n > 0 { SubExactWhen(s, t, n - 1); }
  }

  const HUNDRED: seq<nat> := [0, 0, 1, 0, 0, 0, 0, 0, 0, 0, 0, 0, 0, 0]

  lemma {:induction false} ValueFlat(s: seq<nat>, n: nat, m: nat)
    requires n <= m <= |s| && forall k :: n <= k < m ==> s[k] == 0
    ensures Value(s, m) == Value(s, n)
    decreases m
  {
    if n < m { ValueFlat(s, n, m - 1); }
  }

  lemma {:induction false} LostFlat(s: seq<nat>, t: seq<nat>, n: nat, m: nat)
    requires n <= m <= |s| && m <= |t| && forall k :: n <= k < m ==> s[k] <= t[k]
    ensures Lost(s, t, m) == Lost(s, t, n)
    decreases m
  {
    if n < m { LostFlat(s, t, n, m - 1); }
  }

  lemma {:induction false} ZeroDigit(k: nat)
    ensures DigitOf(0, k) == 0
  {
    if k > 0 { ZeroDigit(k - 1); }
  }

  lemma DigitsOfOne()
    ensures DigitSeq(1)[0] == 1 && forall k :: 1 <= k < DIGITS ==> DigitSeq(1)[k] == 0
  {
    forall k | 1 <= k < DIGITS ensures DigitSeq(1)[k] == 0 { ZeroDigit(k - 1); }
  }

  lemma PowersOfTen()
    ensures P10(1) == 10 && P10(2) == 100 && P10(3) == 1000 && P10(DIGITS) == 100000000000000
  {
    PowerSplit(7, 7);
    assert P10(3) == 1000 && P10(7) == 10000000;
  }

  /** What 100 - 1 costs. */
  lemma HundredValue()
    ensures Value(HUNDRED, DIGITS) == 100 && Decimal(HUNDRED)
  {
    hide P10;
    PowersOfTen();
    ValueFlat(HUNDRED, 3, DIGITS);
    assert Value(HUNDRED, 1) == 0 && Value(HUNDRED, 2) == 0;
  }

  lemma HundredLost()
    ensures Lost(HUNDRED, DigitSeq(1), DIGITS) == 1000 && Short(HUNDRED, DigitSeq(1), DIGITS)
  {
    var one := DigitSeq(1);
    hide DigitSeq, DigitOf;
    PowersOfTen();
    DigitsOfOne();
    LostFlat(HUNDRED, one, 3, DIGITS);
    assert Short(HUNDRED, one, 1) && Short(HUNDRED, one, 2);
    assert Lost(HUNDRED, one, 3) == 1000;
    SubExactWhen(HUNDRED, one, DIGITS);
    assert HUNDRED[0] < one[0];
  }

  /** 100 - 1 already goes wrong: the borrow taken at the units is still taken above the hundreds. */
  method HundredMinusOne() returns (n: Number, borrow: nat)
    ensures n.Valid() && n.Amount() == 99999999999099 && borrow == 1
  {
    hide P10, Value, Lost, Short, DigitOf, DigitSeq, All;
    PowersOfTen();
    n := new Number(100);
    HundredValue();
    HundredLost();
    ValueDetermines(n.Digits(), HUNDRED, DIGITS);
    assert n.Digits() == HUNDRED;
    borrow := n.Sub(1);
  }

  lemma {:induction false} ZeroNibble(k: nat)
    ensures Nibble(0, k) == 0
  {
    if k > 0 { ZeroNibble(k - 1); }
  }

  lemma {:induction false} ZeroValue(n: nat)
    requires n <= DIGITS
    ensures Value(seq(DIGITS, (k: nat) => 0), n) == 0
  {
    if n > 0 { ZeroValue(n - 1); }
  }

  lemma MulNothing(m: seq<nat>, t: seq<nat>)
    requires |t| == DIGITS
    ensures Value(m, 0) * Value(t, DIGITS) == 0
  {}

  lemma TimesSum(a: int, b: int, v: int)
    ensures (a + b) * v == a * v + b * v
  {}

  lemma MulStep(m: seq<nat>, t: seq<nat>, l: nat, before: nat, after: nat)
    requires |m| == |t| == DIGITS && l < DIGITS
    requires before % P10(DIGITS) == Value(m, l) * Value(t, DIGITS) % P10(DIGITS)
    requires RowAdded(before, after, t, l, m[l])
    ensures after % P10(DIGITS) == Value(m, l + 1) * Value(t, DIGITS) % P10(DIGITS)
  {
    hide P10, Value;
    var p, v, d := P10(DIGITS), Value(t, DIGITS), m[l] * P10(l);
    ValueNext(m, l);
    assert after % p == (before + d * v) % p;
    hide RowAdded;
    AddCongruent(before, Value(m, l) * v, d * v, p);
    TimesSum(Value(m, l), d, v);
  }

  lemma AddCongruent(x: int, y: int, z: int, p: int)
    requires p > 0 && x % p == y % p
    ensures (x + z) % p == (y + z) % p
  {
    AddModLeft(x, z, p);
    AddModLeft(y, z, p);
  }

  lemma DecimalAt(s: seq<nat>, k: nat)
    requires Decimal(s) && k < DIGITS
    ensures s[k] < 10
  {}

  lemma SmallProduct(a: nat, b: nat)
    requires a < 10 && b < 10
    ensures a * b <= 81
  {
    MulMono(a, 9, b);
  }

  /** u digits of a row have been added to r0: the amount now, with what is carried out of place u + l. */
  predicate RowSum(now: nat, carry: nat, t: seq<nat>, l: nat, u: nat, m1: nat, r0: nat)
    requires u <= |t|
  {
    now + carry * P10(u + l) == r0 + m1 * P10(l) * Value(t, u)
  }

  /** A whole row has been added, except for what does not fit in fourteen digits. */
  predicate RowAdded(before: nat, after: nat, t: seq<nat>, l: nat, m1: nat)
    requires |t| == DIGITS
  {
    after % P10(DIGITS) == (before + m1 * P10(l) * Value(t, DIGITS)) % P10(DIGITS)
  }

  /** The carry out of the fourteenth digit of the multiplicand. */
  function RowCarry(t: seq<nat>, before: nat, l: nat, m1: nat): nat
    requires |t| == DIGITS
  {
    (m1 * Value(t, DIGITS) + before / P10(l)) / P10(DIGITS)
  }

  /** The digits of b from place l on, as far as there are any among the next u. */
  function High(b: seq<nat>, l: nat, u: nat): nat
    requires |b| == DIGITS
  {
    if u == 0 then 0 else High(b, l, u - 1) + (if u - 1 + l < DIGITS then b[u - 1 + l] * P10(u - 1) else 0)
  }

  /** All that a row has brought together up to digit u of the multiplicand, from place l on. */
  function RowIn(t: seq<nat>, b: seq<nat>, l: nat, u: nat, m1: nat): nat
    requires |t| == |b| == DIGITS && u <= DIGITS
  {
    m1 * Value(t, u) + High(b, l, u)
  }

  lemma CarryOn(x: nat, c: nat, p: nat)
    requires p > 0
    ensures (x + c * p) / (10 * p) == (x / p + c) / 10
  {
    var q, r := x / p, x % p;
    var h, d := (q + c) / 10, (q + c) % 10;
    assert x + c * p == (q + c) * p + r by { assert (q + c) * p == q * p + c * p; }
    assert (10 * h + d) * p == h * (10 * p) + d * p;
    MulMono(d, 9, p);
    MulMono(0, d, p);
    DivModUnique(x + c * p, 10 * p, h, d * p + r);
  }

  lemma RowInNext(t: seq<nat>, b: seq<nat>, l: nat, u: nat, m1: nat, carry: nat)
    requires |t| == |b| == DIGITS && u < DIGITS && carry == RowIn(t, b, l, u, m1) / P10(u)
    ensures RowIn(t, b, l, u + 1, m1) / P10(u + 1) ==
            (m1 * t[u] + carry + (if u + l < DIGITS then b[u + l] else 0)) / 10
  {
    var p, d := P10(u), if u + l < DIGITS then b[u + l] else 0;
    var x, y := RowIn(t, b, l, u, m1), RowIn(t, b, l, u + 1, m1);
    RowInMore(t, b, l, u, m1);
    hide P10, Value, High, RowIn;
    CarryOn(x, m1 * t[u] + d, p);
  }

  lemma RowInMore(t: seq<nat>, b: seq<nat>, l: nat, u: nat, m1: nat)
    requires |t| == |b| == DIGITS && u < DIGITS
    ensures P10(u + 1) == 10 * P10(u)
    ensures RowIn(t, b, l, u + 1, m1) ==
            RowIn(t, b, l, u, m1) + (m1 * t[u] + (if u + l < DIGITS then b[u + l] else 0)) * P10(u)
  {
    var d := if u + l < DIGITS then b[u + l] else 0;
    ValueNext(t, u);
    HighNext(b, l, u);
    hide P10, Value, High;
    AddIn(m1, Value(t, u), t[u], P10(u), d);
  }

  lemma HighNext(b: seq<nat>, l: nat, u: nat)
    requires |b| == DIGITS
    ensures High(b, l, u + 1) == High(b, l, u) + (if u + l < DIGITS then b[u + l] else 0) * P10(u)
  {
    hide P10;
  }

  lemma AddIn(m: nat, v: nat, e: nat, p: nat, d: nat)
    ensures m * (v + e * p) + d * p == m * v + (m * e + d) * p
  {
    assert m * (e * p) == m * e * p;
  }

  lemma {:induction false} HighIs(b: seq<nat>, l: nat, u: nat)
    requires |b| == DIGITS && l <= DIGITS
    ensures Value(b, l) + High(b, l, u) * P10(l) == Value(b, if l + u < DIGITS then l + u else DIGITS)
  {
    if u > 0 {
      HighIs(b, l, u - 1);
      if u - 1 + l < DIGITS {
        PowerSplit(u - 1, l);
        hide P10;
        assert u - 1 + l == l + (u - 1);
        Distribute(High(b, l, u - 1), b[u - 1 + l], P10(u - 1), P10(l));
        assert P10(u - 1) * P10(l) == P10(l) * P10(u - 1);
      }
    }
  }

  lemma RowInAll(t: seq<nat>, b: seq<nat>, l: nat, m1: nat)
    requires |t| == DIGITS && Decimal(b) && l < DIGITS
    ensures RowIn(t, b, l, DIGITS, m1) / P10(DIGITS) == RowCarry(t, Value(b, DIGITS), l, m1)
  {
    hide P10, Value, High;
    HighIs(b, l, DIGITS);
    ValueBound(b, l);
    DivModUnique(Value(b, DIGITS), P10(l), High(b, l, DIGITS), Value(b, l));
  }

  /** The last row's carry in terms of the multiplier. */
  lemma LastRowCarry(m: seq<nat>, t: seq<nat>, multiplier: nat)
    requires |t| == DIGITS && Decimal(m) && Value(m, DIGITS) == multiplier
    ensures var rest := multiplier % P10(13);
            RowCarry(t, Value(m, 13) * Value(t, DIGITS) % P10(DIGITS), 13, m[13]) ==
            (multiplier / P10(13) * Value(t, DIGITS) + rest * Value(t, DIGITS) % P10(DIGITS) / P10(13)) / P10(DIGITS)
  {
    ValueNext(m, 13);
    hide P10, Value;
    ValueBound(m, 13);
    DivModUnique(multiplier, P10(13), m[13], Value(m, 13));
  }

  /**
   * u digits of a row have been added from place l on to a number with digits b: what is to be carried on, and, in top,
   * what is carried on within the fourteen digits.
   */
  ghost predicate RowState(now: seq<nat>, carry: nat, top: nat, t: seq<nat>, b: seq<nat>, l: nat, u: nat, m1: nat)
    requires |now| == |t| == |b| == DIGITS && l < DIGITS && u <= DIGITS
  {
    (u + l <= DIGITS ==> top == carry) && (forall k :: u + l <= k < DIGITS ==> now[k] == b[k]) &&
    carry == RowIn(t, b, l, u, m1) / P10(u) &&
    RowSum(Value(now, DIGITS), top, t, l, if u + l <= DIGITS then u else DIGITS - l, m1, Value(b, DIGITS))
  }

  lemma RowNothing(t: seq<nat>, b: seq<nat>, l: nat, m1: nat)
    requires |t| == |b| == DIGITS && l < DIGITS
    ensures RowState(b, 0, 0, t, b, l, 0, m1)
  {
    assert 0 * P10(l) == 0 && m1 * P10(l) * 0 == 0 && m1 * 0 == 0;
  }

  lemma RowStep(now: seq<nat>, now': seq<nat>, carry: nat, carry': nat, top: nat, top': nat,
                t: seq<nat>, b: seq<nat>, l: nat, u: nat, m1: nat)
    requires |now| == |now'| == |t| == |b| == DIGITS && l < DIGITS && u < DIGITS
    requires var res := m1 * t[u] + carry + (if u + l < DIGITS then now[u + l] else 0);
             carry' == res / 10 &&
             if u + l < DIGITS then now' == now[u + l := res % 10] && top' == carry' else now' == now && top' == top
    requires RowState(now, carry, top, t, b, l, u, m1)
    ensures RowState(now', carry', top', t, b, l, u + 1, m1)
  {
    hide P10, Value, RowIn, RowSum;
    RowInNext(t, b, l, u, m1, carry);
    if u + l < DIGITS {
      RowSumStep(now, t, l, u, m1, carry, Value(b, DIGITS), m1 * t[u] + carry + now[u + l]);
    }
  }

  lemma RowDone(now: seq<nat>, carry: nat, top: nat, t: seq<nat>, b: seq<nat>, l: nat, m1: nat)
    requires |now| == |t| == |b| == DIGITS && l < DIGITS && Decimal(b)
    requires RowState(now, carry, top, t, b, l, DIGITS, m1)
    ensures RowAdded(Value(b, DIGITS), Value(now, DIGITS), t, l, m1)
    ensures carry == RowCarry(t, Value(b, DIGITS), l, m1)
  {
    hide P10, Value, RowIn, RowSum, RowAdded, RowCarry;
    RowSumDone(Value(now, DIGITS), t, l, m1, top, Value(b, DIGITS));
    RowInAll(t, b, l, m1);
  }

  lemma RowArithmetic(x: int, c: nat, m: nat, d: nat, p: nat, y: int)
    requires x + c * p == y
    ensures var res := m + c + d;
            x + (res % 10 - d) * p + res / 10 * (10 * p) == y + m * p
  {
    var res := m + c + d;
    CarryStep(res, p);
    assert (res % 10 - d) * p == res % 10 * p - d * p;
    assert res * p == m * p + c * p + d * p;
  }

  lemma RowSumStep(r: seq<nat>, t: seq<nat>, l: nat, u: nat, m1: nat, carry: nat, r0: nat, res: nat)
    requires |r| == |t| == DIGITS && l + u < DIGITS && res == m1 * t[u] + carry + r[u + l]
    requires RowSum(Value(r, DIGITS), carry, t, l, u, m1, r0)
    ensures RowSum(Value(r[u + l := res % 10], DIGITS), res / 10, t, l, u + 1, m1, r0)
  {
    var p, d := P10(u + l), res % 10;
    ValueUpdate(r, u + l, d, DIGITS);
    PowerSplit(l, u);
    ValueNext(t, u);
    PowerUnits(u + l);
    hide Value, P10;
    assert u + 1 + l == u + l + 1;
    Assemble(m1, P10(l), Value(t, u), t[u], P10(u));
    RowArithmetic(Value(r, DIGITS), carry, m1 * t[u], r[u + l], p, r0 + m1 * P10(l) * Value(t, u));
  }

  lemma Assemble(m: int, q: int, v: int, d: int, p: int)
    ensures m * q * (v + d * p) == m * q * v + m * d * (q * p)
  {
    assert m * q * (d * p) == m * d * (q * p);
  }

  lemma RowSumDone(now: nat, t: seq<nat>, l: nat, m1: nat, top: nat, r0: nat)
    requires |t| == DIGITS && l < DIGITS
    requires RowSum(now, top, t, l, DIGITS - l, m1, r0)
    ensures RowAdded(r0, now, t, l, m1)
  {
    hide P10, Value;
    var p, q := P10(DIGITS), P10(DIGITS - l);
    var rest := ValueSplit(t, DIGITS - l, DIGITS);
    PowerSplit(l, DIGITS - l);
    var low, add := Value(t, DIGITS - l), m1 * P10(l) * Value(t, DIGITS);
    Assemble(m1, P10(l), low, rest, q);
    assert add == m1 * P10(l) * low + m1 * rest * p;
    WholeRow(now, top, r0 + m1 * P10(l) * low, m1 * rest, p);
  }

  lemma WholeRow(now: int, top: int, x: int, k: int, p: int)
    requires p > 0 && now + top * p == x
    ensures now % p == (x + k * p) % p
  {
    ModAddMultiple(now, top, p);
    ModAddMultiple(x, k, p);
  }

  /** The number formed by the digits from k on. */
  function Upper(s: seq<nat>, k: nat): nat
    requires k <= |s|
    decreases |s| - k
  {
    if k == |s| then 0 else s[k] + 10 * Upper(s, k + 1)
  }

  lemma {:induction false} UpperIsValue(s: seq<nat>, k: nat)
    requires k <= |s| == DIGITS
    ensures Value(s, k) + Upper(s, k) * P10(k) == Value(s, DIGITS)
    ensures k == 0 ==> Upper(s, 0) == Value(s, DIGITS)
    decreases |s| - k
  {
    hide P10;
    PowerUnits(k);
    if k < DIGITS {
      UpperIsValue(s, k + 1);
      var p, h := P10(k), Upper(s, k + 1);
      assert Value(s, k + 1) == Value(s, k) + s[k] * p && Upper(s, k) == s[k] + 10 * h;
      hide Value, Upper;
      CarryDigit(Value(s, k), s[k], h, p);
    }
  }

  lemma CarryDigit(v: int, d: int, h: int, p: int)
    ensures v + (d + 10 * h) * p == v + d * p + h * (10 * p)
  {
    assert 10 * h * p == h * (10 * p);
  }

  lemma PowerUnits(k: nat)
    ensures P10(0) == 1 && P10(k + 1) == 10 * P10(k)
  {}

  lemma {:induction false} UpperUpdate(s: seq<nat>, k: nat, d: nat, j: nat)
    requires k < j <= |s|
    ensures Upper(s[k := d], j) == Upper(s, j)
    decreases |s| - j
  {
    if j < |s| { UpperUpdate(s, k, d, j + 1); }
  }

  lemma QuotientIsDigit(d1: nat, q: int, r: nat, divisor: nat)
    requires d1 == q * divisor + r && d1 < 10 * divisor
    ensures q < 10
  {
    if q >= 10 { MulMono(10, q, divisor); }
  }

  lemma DistributeTen(q: int, h: nat, divisor: nat)
    ensures (q + 10 * h) * divisor == q * divisor + 10 * (h * divisor)
  {
    assert 10 * h * divisor == 10 * (h * divisor);
  }

  lemma QuotientOf(x: nat, m: nat)
    requires m > 0
    ensures x == x / m * m + x % m && x / m >= 0 && 0 <= x % m < m
  {}

  lemma DivCombine(d: nat, c: nat, divisor: nat, h: nat, u: nat, q: nat, r: nat)
    requires d < 10 && c < divisor && u == h * divisor + c && d + 10 * c == q * divisor + r
    ensures q < 10 && d + 10 * u == (q + 10 * h) * divisor + r
  {
    QuotientIsDigit(d + 10 * c, q, r, divisor);
    DistributeTen(q, h, divisor);
  }

  lemma DivArithmetic(d: nat, c: nat, divisor: nat, h: nat, u: nat)
    requires d < 10 && c < divisor && u == h * divisor + c
    ensures var d1 := d + 10 * c;
            0 <= d1 / divisor < 10 && d + 10 * u == (d1 / divisor + 10 * h) * divisor + d1 % divisor
  {
    var d1 := d + 10 * c;
    QuotientOf(d1, divisor);
    DivCombine(d, c, divisor, h, u, d1 / divisor, d1 % divisor);
  }

  lemma DivPut(now: seq<nat>, t: seq<nat>, k: nat, q: nat)
    requires |now| == |t| == DIGITS && k < DIGITS
    ensures Upper(t, k) == t[k] + 10 * Upper(t, k + 1)
    ensures Upper(now[k := q], k) == q + 10 * Upper(now, k + 1)
  {
    UpperUpdate(now, k, q, k + 1);
  }

  lemma DivStep(now: seq<nat>, t: seq<nat>, k: nat, divisor: nat, carry: nat)
    requires |now| == |t| == DIGITS && k < DIGITS && t[k] < 10 && carry < divisor
    requires Upper(t, k + 1) == Upper(now, k + 1) * divisor + carry
    ensures var d1 := t[k] + 10 * carry;
            0 <= d1 / divisor < 10 && Upper(t, k) == Upper(now[k := d1 / divisor], k) * divisor + d1 % divisor
  {
    DivArithmetic(t[k], carry, divisor, Upper(now, k + 1), Upper(t, k + 1));
    DivPut(now, t, k, (t[k] + 10 * carry) / divisor);
    hide Upper;
  }
}
