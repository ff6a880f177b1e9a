/** Order totals in whole cents, and how amounts are printed (build.c, print.c). */
module Money {
  import opened ModArith
  import opened Rnd
  import opened Tables
  import opened Build
  import Keys

  // ----- totals -----

  /** A line's exact charge, in ten-thousandths of a cent. */
  function ExactCharge(l: Line): int
  {
    l.eprice * (100 - l.discount) * (100 + l.tax)
  }

  /** An order's exact total over its first n lines, in ten-thousandths of a cent. */
  function ExactTotal(cfg: OrderConfig, okey: int, v: Streams, n: nat): int
  {
    if n == 0 then 0 else ExactTotal(cfg, okey, v, n - 1) + ExactCharge(LineRow(cfg, okey, v, n - 1))
  }

  /** Cutting fractions of cents twice loses less than 2.08 cents. */
  lemma TwoCuts(e: int, d: int, t: int)
    requires 0 <= e && 0 <= d <= 10 && 0 <= t <= 8
    ensures var charge := e * (100 - d) / 100 * (100 + t) / 100;
            10000 * charge <= e * (100 - d) * (100 + t) < 10000 * charge + 20800 && 0 <= charge
  {
    MulMono(0, e, 100 - d);
    var x := e * (100 - d);
    var q, r := x / 100, x % 100;
    var y := q * (100 + t);
    MulMono(0, q, 100 + t);
    assert x * (100 + t) == 100 * y + r * (100 + t) by {
      assert (100 * q + r) * (100 + t) == 100 * q * (100 + t) + r * (100 + t);
    }
    assert 0 <= r * (100 + t) <= 99 * 108 by {
      MulMono(0, r, 100 + t);
      MulMono(r, 99, 100 + t);
    }
  }

  lemma LineRanges(cfg: OrderConfig, okey: int, v: Streams, k: nat)
    ensures var l := LineRow(cfg, okey, v, k);
            0 <= l.discount <= 10 && 0 <= l.tax <= 8 && 90000 <= l.eprice <= 209900 * 50
  {
    hide NextRand, Settings.Total, Keys.Bridge;
    UnifIntRange(0, 10, Iter(k + 1, v[L_DCNT_SD]));
    UnifIntRange(0, 8, Iter(k + 1, v[L_TAX_SD]));
    UnifIntRange(1, 50, Iter(k + 1, v[L_QTY_SD]));
    hide UnifInt;
    var l := LineRow(cfg, okey, v, k);
    var price, quantity := Keys.RetailPrice(l.partkey), l.quantity;
    assert l.eprice == price * quantity && 90000 <= price <= 209900;
    MulMono(90000, price, quantity);
    MulMono(price, 209900, quantity);
  }

  lemma ChargeBounds(cfg: OrderConfig, okey: int, v: Streams, k: nat)
    ensures var l := LineRow(cfg, okey, v, k);
            10000 * Charge(l) <= ExactCharge(l) < 10000 * Charge(l) + 20800 && 0 <= Charge(l) <= 11334600
  {
    hide LineRow;
    LineRanges(cfg, okey, v, k);
    var l := LineRow(cfg, okey, v, k);
    var e, d, t := l.eprice, l.discount, l.tax;
    TwoCuts(e, d, t);
    ExactBounds(e, d, t);
    assert ExactCharge(l) == e * (100 - d) * (100 + t) && Charge(l) == e * (100 - d) / 100 * (100 + t) / 100;
    hide Charge, ExactCharge;
    InRange(ExactCharge(l), Charge(l));
  }

  lemma InRange(exact: int, charge: int)
    requires 10000 * charge <= exact <= 113346000000
    ensures charge <= 11334600
  {}

  lemma ExactBounds(e: int, d: int, t: int)
    requires 0 <= e <= 10495000 && 0 <= d <= 10 && 0 <= t <= 8
    ensures 0 <= e * (100 - d) * (100 + t) <= 113346000000
  {
    MulMono(0, e, 100 - d);
    MulMono(e, 10495000, 100 - d);
    var x := e * (100 - d);
    assert 0 <= x <= 1049500000;
    MulMono(0, x, 100 + t);
    MulMono(x, 1049500000, 100 + t);
  }

  /**
   * An order's printed total never exceeds the exact total, falls short of it by less than 2.08 cents a line, and fits
   * the 32-bit integer it is printed from.
   */
  lemma {:induction false} TotalPrice(cfg: OrderConfig, okey: int, v: Streams, n: nat)
    ensures 10000 * TotalCharge(cfg, okey, v, n) <= ExactTotal(cfg, okey, v, n)
    ensures n > 0 ==> ExactTotal(cfg, okey, v, n) < 10000 * TotalCharge(cfg, okey, v, n) + 20800 * n
    ensures 0 <= TotalCharge(cfg, okey, v, n) <= 11334600 * n
    ensures n <= O_LCNT_MAX ==> TotalCharge(cfg, okey, v, n) < 0x8000_0000
  {
    hide LineRow, Charge, ExactCharge;
    if n > 0 {
      TotalPrice(cfg, okey, v, n - 1);
      ChargeBounds(cfg, okey, v, n - 1);
    }
  }

  // ----- printing -----

  function Digit(d: int): char
    requires 0 <= d < 10
  {
    '0' + d as char
  }

  /** A number without leading zeros. */
  function Digits(n: nat): (s: string)
    ensures |s| >= 1
  {
    if n < 10 then [Digit(n)] else Digits(n / 10) + [Digit(n % 10)]
  }

  /** Dollars, a point, and two digits of cents, behind a sign if the amount is negative. */
  function MoneyText(cents: int): string
  {
    var c: nat := if cents < 0 then -cents else cents;
    (if cents < 0 then "-" else "") + Digits(c / 100) + "." + [Digit(c % 100 / 10), Digit(c % 10)]
  }

  lemma CentsSplit(c: nat)
    ensures c % 100 % 10 == c % 10
  {
    ModArith.ModAddMultiple(c % 100, 10 * (c / 100), 10);
  }

  /** The money case of dbg_print, on an amount a 32-bit integer can hold and negate. */
  method PrintMoney(data: int) returns (out: string)
    requires -0x8000_0000 < data < 0x8000_0000
    ensures out == MoneyText(data)
  {
    var cents := data;
    out := "";
    if cents < 0 {
      out := "-";
      cents := -cents;
    }
    var dollars := cents / 100;
    CentsSplit(cents);
    cents := cents % 100;
    hide Digits, Digit;
    out := out + Digits(dollars) + "." + [Digit(cents / 10), Digit(cents % 10)];
  }

  function Number(s: string): int
  {
    if s == "" then 0 else Number(s[..|s| - 1]) * 10 + (s[|s| - 1] as int - '0' as int)
  }

  /** Reads an amount back from its text. */
  function ReadMoney(s: string): int
    requires |s| >= 4
  {
    var body := if s[0] == '-' then s[1..] else s;
    var n := |body|;
    var c := Number(body[..n - 3]) * 100 + Number(body[n - 2..]);
    if s[0] == '-' then -c else c
  }

  lemma {:induction false} DigitsRead(n: nat)
    ensures Number(Digits(n)) == n
    ensures forall i :: 0 <= i < |Digits(n)| ==> '0' <= Digits(n)[i] <= '9'
  {
    if n < 10 {
      assert Digits(n)[..0] == "";
    } else {
      DigitsRead(n / 10);
      assert Digits(n)[..|Digits(n)| - 1] == Digits(n / 10);
    }
  }

  lemma TwoDigitsRead(a: int, b: int)
    requires 0 <= a < 10 && 0 <= b < 10
    ensures Number([Digit(a), Digit(b)]) == 10 * a + b
  {
    var s := [Digit(a), Digit(b)];
    assert s[..1] == [Digit(a)] && [Digit(a)][..0] == "";
    assert Number([Digit(a)]) == a;
  }

  /** The text of an amount determines the amount, debts of less than a dollar included. */
  lemma MoneyRoundTrip(cents: int)
    ensures |MoneyText(cents)| >= 4 && ReadMoney(MoneyText(cents)) == cents
  {
    var c: nat := if cents < 0 then -cents else cents;
    var s, d, t := MoneyText(cents), Digits(c / 100), [Digit(c % 100 / 10), Digit(c % 10)];
    DigitsRead(c / 100);
    TwoDigitsRead(c % 100 / 10, c % 10);
    CentsParts(c);
    assert d[0] != '-';
    hide Number, Digits, Digit, ReadMoney;
    ReadSigned(cents < 0, d, t);
  }

  /** Where the reader cuts a text. */
  lemma ReadSigned(negative: bool, d: string, t: string)
    requires |d| >= 1 && |t| == 2 && d[0] != '-'
    ensures var s := (if negative then "-" else "") + d + "." + t;
            var c := Number(d) * 100 + Number(t);
            |s| >= 4 && ReadMoney(s) == if negative then -c else c
  {
    hide Number;
    var body := d + "." + t;
    var s := (if negative then "-" else "") + d + "." + t;
    assert (if negative then s[1..] else s) == body;
    assert body[..|body| - 3] == d && body[|body| - 2..] == t;
    assert !negative ==> s[0] == d[0];
  }

  lemma CentsParts(c: nat)
    ensures c / 100 * 100 + (10 * (c % 100 / 10) + c % 10) == c
  {
    CentsSplit(c);
  }
}
