/** Day numbers, Julian dates (yyddd) and calendar dates (bm_utils.c, build.c). */
module Calendar {
  import ModArith

  const STARTDATE := 92001
  const ENDDATE := 98365
  const CURRENTDATE := 95168
  const TOTDATE := 2557
  const JDAY_BASE := 8035
  const JMNTH_BASE := -840
  const T_START_DAY := 3

  /** The leap rule of the generator; it does not know about years divisible by 400. */
  function Leap(y: int): int
  {
    if y % 4 == 0 && y % 100 != 0 then 1 else 0
  }

  function YearLength(y: int): int
  {
    365 + Leap(y)
  }

  // ----- julian and unjulian -----

  /** Walks from the first day of year y, offset days on, to a Julian date. */
  function JulianFrom(y: int, offset: int): int
    decreases if offset > 0 then offset else 0
  {
    if offset >= YearLength(y) then JulianFrom(y + 1, offset - YearLength(y))
    else y * 1000 + 1 + offset
  }

  function Julian(date: int): int
  {
    JulianFrom(92, date - STARTDATE)
  }

  method ComputeJulian(date: int) returns (r: int)
    ensures r == Julian(date)
  {
    var offset := date - STARTDATE;
    var result := STARTDATE;
    ghost var y := 92;
    while true
      invariant result == y * 1000 + 1
      invariant JulianFrom(y, offset) == Julian(date)
      decreases if offset > 0 then offset else 0
    {
      NextYear(y, offset);
      hide JulianFrom, Julian, YearLength;
      ModArith.DivModUnique(result, 1000, y, 1);
      var yr := result / 1000;
      var yend := yr * 1000 + 365 + Leap(yr);
      if result + offset > yend {
        offset := offset - (yend - result + 1);
        result := result + 1000;
        y := y + 1;
      } else {
        break;
      }
    }
    r := result + offset;
  }

  lemma NextYear(y: int, offset: int)
    ensures YearLength(y) == 365 + Leap(y) > 0
    ensures JulianFrom(y, offset) ==
            if offset >= YearLength(y) then JulianFrom(y + 1, offset - YearLength(y)) else y * 1000 + 1 + offset
  {}

  /** The days in the years from a up to but not including b. */
  function DaysBetween(a: int, b: int): nat
    decreases if a < b then b - a else 0
  {
    if a >= b then 0 else DaysBetween(a, b - 1) + YearLength(b - 1)
  }

  function Unjulian(date: int): int
  {
    DaysBetween(92, date / 1000) + date % 1000 - 1
  }

  method ComputeUnjulian(date: int) returns (res: int)
    requires date >= 0
    ensures res == Unjulian(date)
  {
    res := 0;
    var i := STARTDATE / 1000;
    while i < date / 1000
      invariant 92 <= i && (i <= date / 1000 || i == 92)
      invariant res == DaysBetween(92, i)
    {
      res := res + 365 + Leap(i);
      i := i + 1;
    }
    res := res + date % 1000 - 1;
  }

  /** A Julian date the generator can produce: a year from 92 on and a day within it. */
  predicate ValidJulian(date: int)
  {
    92 <= date / 1000 && 1 <= date % 1000 <= YearLength(date / 1000)
  }

  lemma {:induction false} JulianFromInverse(y: int, offset: int)
    requires 92 <= y && 0 <= offset
    ensures ValidJulian(JulianFrom(y, offset))
    ensures Unjulian(JulianFrom(y, offset)) == DaysBetween(92, y) + offset
    decreases offset
  {
    if offset >= YearLength(y) {
      JulianFromInverse(y + 1, offset - YearLength(y));
    } else {
      var date := y * 1000 + 1 + offset;
      assert date / 1000 == y && date % 1000 == 1 + offset;
    }
  }

  /** Counting days and back: julian of any day from the start date on is undone by unjulian. */
  lemma JulianRoundTrip(k: nat)
    ensures ValidJulian(Julian(STARTDATE + k))
    ensures Unjulian(Julian(STARTDATE + k)) == k
  {
    JulianFromInverse(92, k);
  }

  lemma {:induction false} JulianFromYear(y: int, z: int, d: int)
    requires 92 <= y <= z && 1 <= d <= YearLength(z)
    ensures JulianFrom(y, DaysBetween(y, z) + d - 1) == z * 1000 + d
    decreases z - y
  {
    if y < z {
      DaysBetweenSplit(y, z);
      JulianFromYear(y + 1, z, d);
    }
  }

  lemma {:induction false} DaysBetweenSplit(a: int, b: int)
    requires a < b
    ensures DaysBetween(a, b) == YearLength(a) + DaysBetween(a + 1, b)
    decreases b - a
  {
    if a + 1 < b { DaysBetweenSplit(a, b - 1); }
  }

  /** And the other way round: unjulian of a valid Julian date is undone by julian, and of no other date. */
  lemma UnjulianRoundTrip(date: int)
    requires date >= STARTDATE
    ensures Julian(STARTDATE + Unjulian(date)) == date <==> ValidJulian(date)
  {
    if ValidJulian(date) {
      JulianFromYear(92, date / 1000, date % 1000);
    } else if Unjulian(date) >= 0 {
      JulianRoundTrip(Unjulian(date));
    }
  }

  lemma {:induction false} JulianFromMonotone(y: int, a: int, b: int)
    requires 0 <= a < b
    ensures JulianFrom(y, a) < JulianFrom(y, b)
    decreases b
  {
    if a >= YearLength(y) {
      JulianFromMonotone(y + 1, a - YearLength(y), b - YearLength(y));
    } else if b >= YearLength(y) {
      JulianFromLow(y + 1, b - YearLength(y));
    }
  }

  lemma {:induction false} JulianFromLow(y: int, offset: nat)
    ensures JulianFrom(y, offset) > y * 1000
    decreases offset
  {
    if offset >= YearLength(y) { JulianFromLow(y + 1, offset - YearLength(y)); }
  }

  /** julian orders days as the calendar does, so comparing Julian dates compares days. */
  lemma JulianMonotone(a: int, b: int)
    requires STARTDATE <= a && STARTDATE <= b
    ensures a < b <==> Julian(a) < Julian(b)
  {
    if a < b {
      JulianFromMonotone(92, a - STARTDATE, b - STARTDATE);
    } else if b < a {
      JulianFromMonotone(92, b - STARTDATE, a - STARTDATE);
    }
  }

  /** The date tables end where the constants say. */
  lemma LastDay()
    ensures Julian(STARTDATE + TOTDATE - 1) == ENDDATE
    ensures Unjulian(CURRENTDATE) == 366 + 365 + 365 + 167
  {
    assert YearLength(92) == 366 && YearLength(93) == 365 && YearLength(94) == 365 && YearLength(95) == 365;
    assert YearLength(96) == 366 && YearLength(97) == 365 && YearLength(98) == 365;
    assert DaysBetween(92, 94) == 731;
    assert DaysBetween(92, 95) == 1096;
    assert DaysBetween(92, 97) == 1827;
    assert DaysBetween(92, 98) == 2192;
    JulianFromYear(92, 98, 365);
  }

  /** Every fourth year is a leap year but the first of a century, 2000 like any other. */
  lemma LeapYears(c: nat, k: nat, j: nat)
    requires k < 25 && j < 4
    ensures YearLength(100 * c + 4 * k + j) == if j == 0 && k > 0 then 366 else 365
  {
    var y := 4 * k + j;
    ModArith.ModAddMultiple(y, 25 * c, 4);
    ModArith.ModAddMultiple(y, c, 100);
  }

  // ----- calendar dates -----

  /** Days in month m of a common year, and in the months up to m; month 0 is a sentinel. */
  const MONTH_DAYS: seq<int> := [0, 31, 28, 31, 30, 31, 30, 31, 31, 30, 31, 30, 31]
  const MONTH_ENDS: seq<int> := [0, 31, 59, 90, 120, 151, 181, 212, 243, 273, 304, 334, 365]

  datatype Date = Date(year: int, month: int, day: int)

  datatype TimeRow = TimeRow(timekey: int, alpha: Date, year: int, month: int, week: int, day: int)

  /** The leap day counts from February's end on. */
  function LeapAdj(y: int, m: int): int
  {
    if Leap(y) == 1 && m >= 2 then 1 else 0
  }

  function MonthEnd(y: int, m: int): int
    requires 0 <= m <= 12
  {
    MONTH_ENDS[m] + LeapAdj(y, m)
  }

  function DaysIn(y: int, m: int): int
    requires 1 <= m <= 12
  {
    MONTH_DAYS[m] + (if m == 2 then Leap(y) else 0)
  }

  predicate ValidDate(d: Date)
  {
    1 <= d.month <= 12 && 1 <= d.day <= DaysIn(d.year, d.month)
  }

  /** The calendar day after d. */
  function NextDate(d: Date): Date
    requires ValidDate(d)
  {
    if d.day < DaysIn(d.year, d.month) then d.(day := d.day + 1)
    else if d.month < 12 then Date(d.year, d.month + 1, 1)
    else Date(d.year + 1, 1, 1)
  }

  /** The Julian date of a calendar date. */
  function ToJulian(d: Date): int
    requires ValidDate(d)
  {
    d.year * 1000 + MonthEnd(d.year, d.month - 1) + d.day
  }

  /** Month lengths and month ends agree, in common and leap years. */
  lemma MonthEndStep(y: int, m: int)
    requires 1 <= m <= 12
    ensures MonthEnd(y, m) == MonthEnd(y, m - 1) + DaysIn(y, m)
    ensures MonthEnd(y, 0) == 0 && MonthEnd(y, 12) == YearLength(y)
  {}

  lemma {:induction false} MonthEndMonotone(y: int, m: int, n: int)
    requires 0 <= m < n <= 12
    ensures MonthEnd(y, m) < MonthEnd(y, n)
    decreases n
  {
    MonthEndStep(y, n);
    if m < n - 1 { MonthEndMonotone(y, m, n - 1); }
  }

  /** A Julian date determines the calendar date. */
  lemma ToJulianInjective(a: Date, b: Date)
    requires ValidDate(a) && ValidDate(b)
    ensures ToJulian(a) == ToJulian(b) <==> a == b
    ensures 1 <= ToJulian(a) - a.year * 1000 <= YearLength(a.year)
  {
    hide MonthEnd, DaysIn, YearLength;
    YearOfJulian(a);
    YearOfJulian(b);
    DayOfYearBounds(a);
    DayOfYearBounds(b);
    if ToJulian(a) == ToJulian(b) {
      if a.month < b.month - 1 { MonthEndMonotone(a.year, a.month, b.month - 1); }
      if b.month < a.month - 1 { MonthEndMonotone(a.year, b.month, a.month - 1); }
    }
  }

  lemma YearOfJulian(d: Date)
    requires ValidDate(d)
    ensures ToJulian(d) / 1000 == d.year && 1 <= ToJulian(d) % 1000 == ToJulian(d) - d.year * 1000 <= YearLength(d.year)
  {
    DayOfYearBounds(d);
    hide MonthEnd, DaysIn;
    ModArith.DivModUnique(ToJulian(d), 1000, d.year, ToJulian(d) - d.year * 1000);
  }

  lemma DayOfYearBounds(d: Date)
    requires ValidDate(d)
    ensures 0 <= MonthEnd(d.year, d.month - 1)
    ensures MonthEnd(d.year, d.month - 1) + d.day <= MonthEnd(d.year, d.month) <= YearLength(d.year)
  {
    MonthEndStep(d.year, d.month);
    if d.month > 1 { MonthEndMonotone(d.year, 0, d.month - 1); }
    if d.month < 12 { MonthEndMonotone(d.year, d.month, 12); }
  }

  /** Row `index` of the time table, found by scanning the month ends. */
  method MkTime(index: int) returns (t: TimeRow)
    requires index >= 1
    ensures ValidDate(t.alpha)
    ensures ToJulian(t.alpha) == Julian(STARTDATE + index - 1)
    ensures t.timekey == index + 8035 && t.year == 1900 + t.alpha.year && t.day == t.alpha.day
    ensures t.month == 12 * (t.alpha.year - 70) + t.alpha.month
    ensures t.week == (ToJulian(t.alpha) - 1000 * t.alpha.year + 2) / 7 + 1
  {
    hide Julian, YearLength;
    JulianRoundTrip(index - 1);
    var j := ComputeJulian(index + STARTDATE - 1);
    var y, d := j / 1000, j % 1000;
    var m := 0;
    MonthEndStep(y, 12);
    while d > MONTH_ENDS[m] + LeapAdj(y, m)
      invariant 0 <= m <= 12
      invariant m >= 1 ==> d > MonthEnd(y, m - 1)
      decreases 12 - m
    {
      m := m + 1;
    }
    MonthEndStep(y, m);
    var alpha := Date(y, m, d - MONTH_ENDS[m - 1] - (if Leap(y) == 1 && m > 2 then 1 else 0));
    t := TimeRow(index + JDAY_BASE, alpha, 1900 + y, m + 12 * y + JMNTH_BASE, (d + T_START_DAY - 1) / 7 + 1,
                 d - MONTH_ENDS[m - 1] - LeapAdj(y, m - 1));
  }

  /** The date k days after 1 January 1992. */
  function DateAfter(k: nat): (d: Date)
    ensures ValidDate(d)
  {
    if k == 0 then Date(92, 1, 1) else NextDate(DateAfter(k - 1))
  }

  /** The Julian date of the next day. */
  function NextJulian(date: int): int
  {
    if date % 1000 < YearLength(date / 1000) then date + 1 else (date / 1000 + 1) * 1000 + 1
  }

  lemma JulianNext(k: nat)
    ensures Julian(STARTDATE + k + 1) == NextJulian(Julian(STARTDATE + k))
  {
    var j := Julian(STARTDATE + k);
    JulianRoundTrip(k);
    var y, n := j / 1000, j % 1000;
    if n < YearLength(y) {
      JulianFromYear(92, y, n + 1);
    } else {
      JulianFromYear(92, y + 1, 1);
    }
  }

  lemma NextDateJulian(d: Date)
    requires ValidDate(d)
    ensures ValidDate(NextDate(d))
    ensures ToJulian(NextDate(d)) == NextJulian(ToJulian(d))
  {
    hide MonthEnd, DaysIn, YearLength;
    YearOfJulian(d);
    MonthEndStep(d.year, d.month);
    MonthHasDays(d.year, d.month + 1);
    MonthHasDays(d.year + 1, 1);
    MonthEndStep(d.year + 1, 1);
    if d.month < 12 { MonthEndMonotone(d.year, d.month, 12); }
    MonthEndStep(d.year, 12);
  }

  lemma MonthHasDays(y: int, m: int)
    ensures 1 <= m <= 12 ==> 1 <= DaysIn(y, m)
  {}

  /** Consecutive indices give consecutive dates: both counts of days agree for ever. */
  lemma {:induction false} DateAfterJulian(k: nat)
    ensures ToJulian(DateAfter(k)) == Julian(STARTDATE + k)
  {
    if k > 0 {
      DateAfterJulian(k - 1);
      JulianNext(k - 1);
      NextDateJulian(DateAfter(k - 1));
    }
  }

  /** The table of date texts: entry k is the date k days after the start, for every k. */
  method MkAscDate() returns (m: seq<Date>)
    ensures |m| == TOTDATE
    ensures forall k :: 0 <= k < TOTDATE ==> m[k] == DateAfter(k)
  {
    m := [];
    var i := 0;
    while i < TOTDATE
      invariant 0 <= i <= TOTDATE && |m| == i
      invariant forall k :: 0 <= k < i ==> m[k] == DateAfter(k)
    {
      var t := MkTime(i + 1);
      DateAfterJulian(i);
      ToJulianInjective(t.alpha, DateAfter(i));
      m := m + [t.alpha];
      i := i + 1;
    }
  }
}
