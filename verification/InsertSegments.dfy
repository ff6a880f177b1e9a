/** Splitting the inserts of an update set over several files (driver.c). */
module InsertSegments {
  import opened ModArith

  // ----- the counters of gen_tbl -----

  /** The update number and the row of its segment, when the counters go on to the next row. */
  function Turn(count: nat, segs: nat, upd: nat, row: int): (nat, int)
    requires segs > 0
  {
    if (if upd / 10000 < count % segs then row + 1 > count / segs else row + 1 >= count / segs)
    then (upd + 10000, 0) else (upd, row + 1)
  }

  /** The counters after n of count rows. */
  function Counters(count: nat, segs: nat, upd: nat, n: nat): (nat, int)
    requires segs > 0
  {
    if n == 0 then (upd, -1)
    else
      var (u, row) := Counters(count, segs, upd, n - 1);
      Turn(count, segs, u, row)
  }

  /** The update numbers that the first n of count rows of an update set are presented under. */
  function Modes(count: nat, segs: nat, upd: nat, n: nat): (modes: seq<nat>)
    ensures |modes| == n
  {
    if n == 0 then []
    else
      Modes(count, segs, upd, n - 1) + [if segs > 0 && upd > 0 then Counters(count, segs, upd, n).0 else upd]
  }

  lemma {:induction false} ModesAt(count: nat, segs: nat, upd: nat, n: nat, k: nat)
    requires k < n
    ensures Modes(count, segs, upd, n)[k] ==
            if segs > 0 && upd > 0 then Counters(count, segs, upd, k + 1).0 else upd
  {
    if k < n - 1 { ModesAt(count, segs, upd, n - 1, k); }
  }

  // ----- balanced segments -----

  /** The first row of segment j when count rows are split into segs. */
  function First(count: nat, segs: nat, j: nat): int
    requires segs > 0
  {
    j * (count / segs) + (if j < count % segs then j else count % segs)
  }

  /** The segments cover all rows, without gaps, and differ in size by at most one, larger ones first. */
  lemma SegmentsCover(count: nat, segs: nat, j: nat)
    requires segs > 0
    ensures First(count, segs, 0) == 0 && First(count, segs, segs) == count
    ensures First(count, segs, j + 1) == First(count, segs, j) + count / segs + (if j < count % segs then 1 else 0)
  {
    var per := count / segs;
    assert count == segs * per + count % segs;
    assert (j + 1) * per == j * per + per;
    assert 0 * per == 0;
  }

  lemma {:induction false} FirstMonotone(count: nat, segs: nat, i: nat, j: nat)
    requires segs > 0 && i <= j
    ensures First(count, segs, i) <= First(count, segs, j)
    decreases j
  {
    if i < j {
      FirstMonotone(count, segs, i, j - 1);
      SegmentsCover(count, segs, j - 1);
    }
  }

  /** A row is in one segment only. */
  lemma OneSegment(count: nat, segs: nat, base: int, k: int, i: nat, j: nat)
    requires segs > 0 && InSegment(count, segs, base, k, i) && InSegment(count, segs, base, k, j)
    ensures i == j
  {
    if i < j { FirstMonotone(count, segs, i + 1, j); }
    if j < i { FirstMonotone(count, segs, j + 1, i); }
  }

  /** Row k belongs to segment j when the first row is row `base` of all. */
  predicate InSegment(count: nat, segs: nat, base: int, k: int, j: nat)
    requires segs > 0
  {
    First(count, segs, j) <= base + k < First(count, segs, j + 1)
  }

  lemma SmallCount(count: nat, segs: nat)
    requires segs > 0 && count / segs == 0
    ensures count % segs == count
  {}

  /** n rows are out; the last of them was row `row` of segment j. */
  predicate At(count: nat, segs: nat, base: int, n: nat, j: nat, row: int)
    requires segs > 0
  {
    First(count, segs, j) + row == base + n - 1 &&
    if n == 0 then row == -1 else InSegment(count, segs, base, n - 1, j)
  }

  lemma NextRow(count: nat, segs: nat, base: int, n: nat, j: nat, row: int)
    requires segs > 0 && n < count && At(count, segs, base, n, j, row)
    requires count / segs > 0 || base == 0
    ensures if (if j < count % segs then row + 1 > count / segs else row + 1 >= count / segs)
            then At(count, segs, base, n + 1, j + 1, 0) else At(count, segs, base, n + 1, j, row + 1)
  {
    hide First;
    var per, rest := count / segs, count % segs;
    var f, g, h := First(count, segs, j), First(count, segs, j + 1), First(count, segs, j + 2);
    if per == 0 {
      SmallCount(count, segs);
      FewRows(count, segs, j);
      FewRows(count, segs, j + 1);
      FewRows(count, segs, j + 2);
    } else {
      SegmentsCover(count, segs, j);
      SegmentsCover(count, segs, j + 1);
    }
    RowTurn(count, per, rest, base, n, j, row, f, g, h);
  }

  /** The same of the numbers alone: f, g and h are where segments j, j + 1 and j + 2 begin. */
  lemma RowTurn(count: nat, per: nat, rest: nat, base: int, n: nat, j: nat, row: int, f: int, g: int, h: int)
    requires f + row == base + n - 1 && n < count && (if n == 0 then row == -1 else f <= base + n - 1 < g)
    requires if per > 0 then g == f + per + (if j < rest then 1 else 0) &&
                             h == g + per + (if j + 1 < rest then 1 else 0)
             else base == 0 && rest == count && f == (if j < count then j else count) &&
                  g == (if j + 1 < count then j + 1 else count) && h == (if j + 2 < count then j + 2 else count)
    ensures if (if j < rest then row + 1 > per else row + 1 >= per)
            then g == base + n && base + n < h else f + row + 1 == base + n && base + n < g
  {}

  lemma FewRows(count: nat, segs: nat, j: nat)
    requires segs > 0 && count / segs == 0
    ensures First(count, segs, j) == if j < count then j else count
  {
    SmallCount(count, segs);
    assert j * (count / segs) == 0;
  }

  /** The segment of row k of an update set. */
  lemma {:induction false} CountersAt(count: nat, segs: nat, upd: nat, n: nat) returns (j: nat)
    requires segs > 0 && n <= count && (count / segs > 0 || upd < 10000)
    ensures var (u, row) := Counters(count, segs, upd, n);
            u == upd + 10000 * (j - upd / 10000) && At(count, segs, First(count, segs, upd / 10000), n, j, row) &&
            (n == 0 ==> j == upd / 10000)
  {
    hide First, At;
    var base := First(count, segs, upd / 10000);
    if n == 0 {
      j := upd / 10000;
      NothingOut(count, segs, base, j);
    } else {
      j := CountersAt(count, segs, upd, n - 1);
      var (u, row) := Counters(count, segs, upd, n - 1);
      assert u / 10000 == j;
      if upd < 10000 { SegmentsCover(count, segs, 0); }
      NextRow(count, segs, base, n - 1, j, row);
      if (if j < count % segs then row + 1 > count / segs else row + 1 >= count / segs) { j := j + 1; }
    }
  }

  lemma NothingOut(count: nat, segs: nat, base: int, j: nat)
    requires segs > 0 && base == First(count, segs, j)
    ensures At(count, segs, base, 0, j, -1)
  {}

  /** With fewer rows than files every row has a segment of its own, the first one skipped if it is empty. */
  lemma {:induction false} FewCounters(count: nat, segs: nat, upd: nat, n: nat)
    requires segs > 0 && count / segs == 0 && 0 < n <= count
    ensures Counters(count, segs, upd, n) == (upd + 10000 * (n - 1 + Skipped(count, upd)), 0)
  {
    SmallCount(count, segs);
    if n > 1 {
      FewCounters(count, segs, upd, n - 1);
    } else {
      assert Counters(count, segs, upd, 0) == (upd, -1);
    }
  }

  /** Whether a set that starts in segment upd / 10000 finds that segment without rows. */
  function Skipped(count: nat, upd: nat): nat
  {
    if upd / 10000 < count then 0 else 1
  }

  /** The segment of row k of an update set whose number puts its first row into segment upd / 10000. */
  predicate Belongs(count: nat, segs: nat, upd: nat, k: nat, j: nat)
    requires segs > 0
  {
    if count / segs > 0 then InSegment(count, segs, First(count, segs, upd / 10000), k, j)
    else j == upd / 10000 + k + Skipped(count, upd)
  }

  /**
   * The rows of a segment, and no others, are presented under its update number: row k of set upd is presented under
   * upd + 10000 * (j - upd / 10000) exactly when it belongs to segment j.
   */
  lemma InsertModes(count: nat, segs: nat, upd: nat, k: nat, j: nat)
    requires segs > 0 && upd > 0 && k < count
    ensures Modes(count, segs, upd, count)[k] == upd + 10000 * (j - upd / 10000) <==> Belongs(count, segs, upd, k, j)
  {
    hide First, Counters, InSegment, Modes;
    var base := First(count, segs, upd / 10000);
    ModesAt(count, segs, upd, count, k);
    if count / segs > 0 {
      var i := CountersAt(count, segs, upd, k + 1);
      assert InSegment(count, segs, base, k, i);
      if InSegment(count, segs, base, k, j) { OneSegment(count, segs, base, k, i, j); }
    } else {
      FewCounters(count, segs, upd, k + 1);
    }
  }

  /** For the sets below 10000 that is the balanced segment, however few the rows. */
  lemma BelongsBalanced(count: nat, segs: nat, upd: nat, k: nat, j: nat)
    requires segs > 0 && upd < 10000 && k < count
    ensures Belongs(count, segs, upd, k, j) <==> InSegment(count, segs, 0, k, j)
  {
    hide First;
    SegmentsCover(count, segs, 0);
    if count / segs == 0 {
      FewRows(count, segs, j);
      FewRows(count, segs, j + 1);
    }
  }

  lemma {:induction false} ModesSlow(count: nat, segs: nat, upd: nat, n: nat)
    requires segs > 0
    ensures Counters(count, segs, upd, n).0 <= upd + 10000 * n
  {
    if n > 0 { ModesSlow(count, segs, upd, n - 1); }
  }

  /**
   * The rows of a set fit the files asked for exactly when the set number is below 10000, the number so far having no
   * segments in it, or the split is even, or there are fewer rows than files.
   */
  lemma InsertFiles(count: nat, segs: nat, upd: nat)
    requires segs > 0 && upd > 0 && count > 0
    ensures Modes(count, segs, upd, count)[count - 1] < upd + 10000 * segs <==>
            upd < 10000 || count % segs == 0 || count < segs
  {
    ModesAt(count, segs, upd, count, count - 1);
    hide Modes, First, InSegment, Counters;
    if count < segs {
      ModesSlow(count, segs, upd, count);
    } else {
      var j := CountersAt(count, segs, upd, count);
      LastSegment(count, segs, upd / 10000, j);
      SegmentLimit(upd, j, segs);
    }
  }

  lemma SegmentLimit(upd: nat, j: nat, segs: nat)
    ensures upd + 10000 * (j - upd / 10000) < upd + 10000 * segs <==> j < upd / 10000 + segs
    ensures upd < 10000 <==> upd / 10000 == 0
  {}

  /** The segment the last row falls into, when the first row falls into segment start. */
  lemma LastSegment(count: nat, segs: nat, start: nat, j: nat)
    requires segs > 0 && count > 0 && InSegment(count, segs, First(count, segs, start), count - 1, j)
    ensures j < start + segs <==> start == 0 || count % segs == 0
  {
    var base := First(count, segs, start);
    AllOfThem(count, segs, start);
    if j < start + segs {
      FirstMonotone(count, segs, j + 1, start + segs);
    } else {
      FirstMonotone(count, segs, start + segs, j);
    }
  }

  lemma AllOfThem(count: nat, segs: nat, start: nat)
    requires segs > 0
    ensures var room := First(count, segs, start + segs) - First(count, segs, start);
            room <= count && (room == count <==> start == 0 || count % segs == 0)
  {
    var per := count / segs;
    assert (start + segs) * per == start * per + segs * per;
    assert count == segs * per + count % segs;
  }
}
