/** Generating update sets, from the first or resumed at any later one (driver.c, bm_utils.c, print.c). */
module Updates {
  import opened Rnd
  import opened Tables
  import opened Build
  import opened Runs
  import opened Parallel
  import opened Generator
  import InsertSegments
  import Keys
  import Period
  import Refresh
  import opened Segments

  /** The streams once main has positioned them past the population. */
  function UpdateStart(cfg: Config, v: Streams): Streams
  {
    cfg.TotalPositive(ORDER);
    SkippedPast(ORDER, cfg.Total(ORDER) / 100 * 100, cfg.Total(ORDER) % 100, v)
  }

  /** Update rows in n sets. */
  function RowsOfSets(cfg: Config, n: nat): nat
  {
    n * Refresh.UpdateRows(cfg)
  }

  /** The orders of update set u, generated when `before` sets have gone through the streams w. */
  function InsertSet(cfg: OrderConfig, u: nat, before: nat, w: Streams): seq<Printed>
    requires u >= 1
  {
    Rows(cfg, ORDER_LINE, RowsOfSets(cfg, u - 1) + 1, Refresh.UpdateRows(cfg), u % 10000,
         AfterRows(ORDER_LINE, RowsOfSets(cfg, before), w))
  }

  /** The update numbers the orders of update set u are presented under. */
  function InsertModes(cfg: Config, u: nat, segs: nat): seq<nat>
  {
    InsertSegments.Modes(Refresh.UpdateRows(cfg), segs, u, Refresh.UpdateRows(cfg))
  }

  /** The keys update set u deletes. */
  function DeleteSet(cfg: Config, u: nat): seq<nat>
    requires u >= 1
  {
    DeleteKeys(RowsOfSets(cfg, u - 1) + 1, Refresh.UpdateRows(cfg), u)
  }

  /** The delete files of update set u. */
  function DeleteFiles(cfg: Config, u: nat, segs: nat): seq<seq<nat>>
    requires u >= 1
  {
    SplitKeys(DeleteSet(cfg, u), Refresh.UpdateRows(cfg), segs)
  }

  /**
   * With a scale of 0.01 there are ten orders to a set, and those of set 10000 do not fit the three files asked for.
   */
  lemma InsertsOverflow(cfg: Config)
    requires cfg.orderBase == 1500000 * 10 / 1000 && cfg.scale == 1
    ensures |InsertModes(cfg, 10000, 3)| == 10 && InsertModes(cfg, 10000, 3)[9] >= 10000 + 10000 * 3
  {
    assert Refresh.UpdateRows(cfg) == 10;
    InsertSegments.InsertFiles(10, 3, 10000);
  }

  /** Sets that a run started at `step` leaves to earlier runs. */
  function SetsBefore(step: int): nat
  {
    if step > 0 then step - 1 else 0
  }

  /** The streams when a run started at `step` generates its first set. */
  function ResumedStart(cfg: Config, step: int, v: Streams): Streams
  {
    Skipped(ORDER_LINE, RowsOfSets(cfg, SetsBefore(step)), UpdateStart(cfg, v))
  }

  /**
   * main's update branch: sets step..updates, or 1..updates when no step is given. Entry j of modes holds the update
   * numbers the orders of set j are presented under, entry j of del the delete files of set j.
   */
  method RunUpdates(g: Dbgen, step: int, updates: nat, insertSegments: nat, deleteSegments: nat)
    returns (ins: seq<seq<Printed>>, modes: seq<seq<nat>>, del: seq<seq<seq<nat>>>)
    requires g.Valid() && g.cfg.Small()
    modifies g.seed, g`used, g`start
    ensures g.Valid()
    ensures |ins| == |modes| == |del| == if updates > SetsBefore(step) then updates - SetsBefore(step) else 0
    ensures SetsBefore(step) == if step > 0 then step - 1 else 0
    ensures forall j :: 0 <= j < |ins| ==>
              ins[j] == InsertSet(g.cfg, SetsBefore(step) + j + 1, j, ResumedStart(g.cfg, step, old(g.Values())))
    ensures forall j :: 0 <= j < |ins| ==> modes[j] == InsertModes(g.cfg, SetsBefore(step) + j + 1, insertSegments)
    ensures g.cfg.orderBase % 10000 == 0 ==>
              forall j :: 0 <= j < |ins| ==>
                1000 * |ins[j]| == 1000 * |modes[j]| == 1000 * |Flatten(del[j])| == g.cfg.Total(ORDER)
    ensures forall j :: 0 <= j < |ins| ==>
              |ins[j]| == |modes[j]| == |Flatten(del[j])| &&
              g.cfg.Total(ORDER) - 10000 * g.cfg.scale < 1000 * |ins[j]| <= g.cfg.Total(ORDER)
    ensures forall j :: 0 <= j < |ins| ==> del[j] == DeleteFiles(g.cfg, SetsBefore(step) + j + 1, deleteSegments)
  {
    hide Rows, AfterRows, ResumedStart, Refresh.UpdateRows, InsertSet, InsertModes, DeleteFiles, RowsOfSets;
    var writer := new DeleteWriter();
    var rowcnt := Position(g, step);
    var updNum := SetsBefore(step);
    ghost var done, w := updNum, g.Values();
    ins, modes, del := [], [], [];
    NoRows(g.cfg, w);
    while updNum < updates
      invariant done <= updNum && (updNum <= updates || updNum == done) && g.Valid()
      invariant |ins| == |modes| == |del| == updNum - done
      invariant g.Values() == AfterRows(ORDER_LINE, RowsOfSets(g.cfg, updNum - done), w)
      invariant forall j :: 0 <= j < |ins| ==> ins[j] == InsertSet(g.cfg, done + j + 1, j, w)
      invariant forall j :: 0 <= j < |ins| ==> modes[j] == InsertModes(g.cfg, done + j + 1, insertSegments)
      invariant forall j :: 0 <= j < |ins| ==> del[j] == DeleteFiles(g.cfg, done + j + 1, deleteSegments)
      invariant fresh(writer) && 0 <= writer.lastNum <= updNum && writer.Sized(rowcnt, deleteSegments)
    {
      var filesBefore := |writer.files|;
      var rows, nums := UpdatePair(g, writer, updNum, rowcnt, insertSegments, deleteSegments, updNum - done, w);
      ins, modes, del := ins + [rows], modes + [nums], del + [writer.files[filesBefore..]];
      updNum := updNum + 1;
    }
    Refresh.UpdateShare(g.cfg);
    forall j | 0 <= j < |ins|
      ensures |ins[j]| == |modes[j]| == |Flatten(del[j])| == Refresh.UpdateRows(g.cfg)
    {
      SetSizes(g.cfg, done + j + 1, j, w, insertSegments, deleteSegments);
    }
  }

  /** A set inserts and deletes as many orders as it has rows. */
  lemma SetSizes(cfg: OrderConfig, u: nat, before: nat, w: Streams, insertSegments: nat, deleteSegments: nat)
    requires u >= 1
    ensures |InsertSet(cfg, u, before, w)| == Refresh.UpdateRows(cfg)
    ensures |InsertModes(cfg, u, insertSegments)| == Refresh.UpdateRows(cfg)
    ensures |Flatten(DeleteFiles(cfg, u, deleteSegments))| == Refresh.UpdateRows(cfg)
  {
    hide Rows, AfterRows, InsertSegments.Modes, SplitKeys, DeleteKeys, Refresh.UpdateRows;
    SplitFits(DeleteSet(cfg, u), deleteSegments);
  }

  lemma NoRows(cfg: Config, w: Streams)
    ensures AfterRows(ORDER_LINE, RowsOfSets(cfg, 0), w) == w
  {
    assert 0 * Refresh.UpdateRows(cfg) == 0;
  }

  /** One turn of the update loop: the inserts and the deletes of set updNum + 1. */
  method UpdatePair(g: Dbgen, writer: DeleteWriter, updNum: nat, rowcnt: nat, insertSegments: nat, deleteSegments: nat,
                    ghost j: nat, ghost w: Streams)
    returns (rows: seq<Printed>, modes: seq<nat>)
    requires g.Valid() && g.cfg.Small() && rowcnt == Refresh.UpdateRows(g.cfg)
    requires g.Values() == AfterRows(ORDER_LINE, RowsOfSets(g.cfg, j), w)
    requires 0 <= writer.lastNum <= updNum && writer.Sized(rowcnt, deleteSegments)
    modifies g.seed, g`used, g`start, writer
    ensures g.Valid() && g.Values() == AfterRows(ORDER_LINE, RowsOfSets(g.cfg, j + 1), w)
    ensures rows == InsertSet(g.cfg, updNum + 1, j, w)
    ensures writer.files == old(writer.files) + DeleteFiles(g.cfg, updNum + 1, deleteSegments)
    ensures writer.lastNum == updNum + 1 && writer.Sized(rowcnt, deleteSegments)
    ensures modes == InsertModes(g.cfg, updNum + 1, insertSegments)
  {
    hide InsertSegments.Modes, SplitKeys, DeleteKeys, Rows, AfterRows, Refresh.UpdateRows;
    var minrow := updNum * rowcnt + 1;
    AfterRowsAdd(ORDER_LINE, j * rowcnt, rowcnt, w);
    assert j * rowcnt + rowcnt == (j + 1) * rowcnt;
    rows, modes := g.GenTbl(ORDER_LINE, minrow, rowcnt, updNum + 1, insertSegments, false);
    writer.PrDrange(minrow, rowcnt, updNum + 1, deleteSegments);
  }

  /** Moves the streams past the population and past the sets before `step`. */
  method Position(g: Dbgen, step: int) returns (rowcnt: nat)
    requires g.Valid()
    modifies g.seed
    ensures g.Valid() && rowcnt == Refresh.UpdateRows(g.cfg)
    ensures g.Values() == ResumedStart(g.cfg, step, old(g.Values()))
  {
    hide SkippedPast, SkipPerRow, Settings.Total;
    var _, extra := g.SetState(ORDER, g.cfg.scale, 100, 101);
    Refresh.UpdatesFit(g.cfg, 1);
    rowcnt := g.cfg.Base(ORDER_LINE) / 10000 * g.cfg.scale * 10;
    ghost var w := g.Values();
    assert w == UpdateStart(g.cfg, old(g.Values()));
    assert 0 * rowcnt == 0;
    SkipNothing(w);
    if step > 0 {
      var i := 1;
      while i < step
        invariant 1 <= i && (i <= step || i == 1) && g.Valid()
        invariant g.Values() == Skipped(ORDER_LINE, (i - 1) * rowcnt, w)
      {
        ghost var before := g.Values();
        SkipSet(g, rowcnt);
        SkippedAdd(rowcnt, (i - 1) * rowcnt, w);
        assert rowcnt + (i - 1) * rowcnt == i * rowcnt;
        i := i + 1;
      }
    }
  }

  /** The skip of one earlier set: orders, then lineitems. */
  method SkipSet(g: Dbgen, rowcnt: nat)
    requires g.Valid()
    modifies g.seed
    ensures g.Valid() && g.Values() == Skipped(ORDER_LINE, rowcnt, old(g.Values()))
  {
    hide NextRand;
    g.SdOrder(rowcnt);
    label ordered:
    g.SdLine(0, rowcnt);
    forall s | IsStream(s)
      ensures g.Values()[s] == Skipped(ORDER_LINE, rowcnt, old(g.Values()))[s]
    {
      var a, b := Tables.SdOrder(s), Tables.SdLine(0, s);
      IterAdd(b * rowcnt, a * rowcnt, old(g.seed[s].value));
      assert b * rowcnt + a * rowcnt == (a + b) * rowcnt;
    }
  }

  lemma SkipNothing(v: Streams)
    ensures Skipped(ORDER_LINE, 0, v) == v
  {
    forall s | IsStream(s) ensures Skipped(ORDER_LINE, 0, v)[s] == v[s] {
      assert SkipPerRow(ORDER_LINE, s) * 0 == 0;
    }
  }

  lemma SkippedAdd(a: nat, b: nat, v: Streams)
    ensures Skipped(ORDER_LINE, a, Skipped(ORDER_LINE, b, v)) == Skipped(ORDER_LINE, a + b, v)
  {
    hide SkipPerRow, Iter;
    forall s | IsStream(s)
      ensures Skipped(ORDER_LINE, a, Skipped(ORDER_LINE, b, v))[s] == Skipped(ORDER_LINE, a + b, v)[s]
    {
      Dbgen.SkipMore(ORDER_LINE, s, a, b, v[s]);
    }
  }

  // ----- resuming -----

  /**
   * Every set comes out the same whether the run starts with it or at any set before it: what a run resumed at `step`
   * generates as its set u is what the run from set 1 generates as set u.
   */
  lemma ResumedSetIsSame(cfg: OrderConfig, u: nat, step: nat, v: Streams)
    requires 1 <= step <= u
    ensures InsertSet(cfg, u, u - step, ResumedStart(cfg, step, v)) == InsertSet(cfg, u, u - 1, ResumedStart(cfg, 1, v))
  {
    hide AfterRow, AfterRows, Rows, SkipPerRow, Skipped, Refresh.UpdateRows, UpdateStart, Agree;
    var rc, w := Refresh.UpdateRows(cfg), UpdateStart(cfg, v);
    var a, b := (u - step) * rc, (step - 1) * rc;
    assert a + b == (u - 1) * rc && 0 * rc == 0 by { Together(u - step, step - 1, rc); }
    SkipNothing(w);
    SkipReplacesRows(ORDER_LINE, a, Skipped(ORDER_LINE, b, w));
    SkippedAdd(a, b, w);
    SkipReplacesRows(ORDER_LINE, a + b, w);
    AgreeMeet(ORDER_LINE, AfterRows(ORDER_LINE, a, Skipped(ORDER_LINE, b, w)), AfterRows(ORDER_LINE, a + b, w),
              Skipped(ORDER_LINE, a + b, w));
    SameOutput(cfg, ORDER_LINE, (u - 1) * rc + 1, rc, u % 10000,
               AfterRows(ORDER_LINE, a, Skipped(ORDER_LINE, b, w)), AfterRows(ORDER_LINE, a + b, w));
  }

  lemma Together(a: int, b: int, m: int)
    ensures a * m + b * m == (a + b) * m && 0 * m == 0
  {}

  // ----- beyond the population -----

  lemma UpdateStartStreams(cfg: OrderConfig, v: Streams, s: int)
    requires IsStream(s)
    ensures var total := cfg.Total(ORDER);
            total >= 0 &&
            UpdateStart(cfg, v)[s] ==
            if StreamTable(s) == ORDER then Iter(SkipPerRow(ORDER_LINE, s) * total, v[s])
            else Iter(SkipPerRow(ORDER_LINE, s) * (total / 100 * 100), v[s])
  {
    hide Iter, SkipPerRow, Tables.GenSeed, StreamTable, Settings.Total;
    cfg.TotalPositive(ORDER);
    var total := cfg.Total(ORDER);
    var k, n, extra := SkipPerRow(ORDER_LINE, s), total / 100 * 100, total % 100;
    OrderSkips(s);
    if StreamTable(s) == ORDER {
      IterAdd(k * extra, k * n, v[s]);
      assert k * extra + k * n == k * total by { assert k * (n + extra) == k * n + k * extra; }
    } else {
      assert 0 * extra == 0;
      NoDraws(Iter(k * n, v[s]));
    }
  }

  /** The order routine moves the order streams by what the pair moves them, and no others. */
  lemma OrderSkips(s: int)
    requires IsStream(s)
    ensures SkipPerRow(ORDER, s) == SkipPerRow(ORDER_LINE, s)
    ensures Tables.GenSeed(ORDER, 0, s) == if StreamTable(s) == ORDER then SkipPerRow(ORDER_LINE, s) else 0
  {}

  lemma NoDraws(v: Live)
    ensures Iter(0, v) == v
  {}

  /**
   * Updates continue the population's streams where the population ends, and so never reuse a draw of it, exactly
   * when the order count is a multiple of 100: otherwise the remainder is skipped for orders but not for lineitems.
   */
  lemma UpdatesFollowPopulation(cfg: OrderConfig, v: Streams)
    ensures cfg.Total(ORDER) >= 0
    ensures Agree(ORDER_LINE, UpdateStart(cfg, v), Skipped(ORDER_LINE, cfg.Total(ORDER), v)) <==>
            cfg.Total(ORDER) % 100 == 0
  {
    hide SkipPerRow, Iter, UpdateStart;
    cfg.TotalPositive(ORDER);
    var total := cfg.Total(ORDER);
    if total % 100 == 0 {
      assert total / 100 * 100 == total;
      forall s | IsStream(s) && SkipPerRow(ORDER_LINE, s) > 0
        ensures UpdateStart(cfg, v)[s] == Skipped(ORDER_LINE, total, v)[s]
      {
        UpdateStartStreams(cfg, v, s);
      }
    } else {
      LaggingStream(cfg, v);
    }
  }

  /** The remainder is too short for a stream to come round to the same value. */
  lemma LaggingStream(cfg: OrderConfig, v: Streams)
    requires cfg.Total(ORDER) % 100 != 0
    ensures cfg.Total(ORDER) >= 0 && SkipPerRow(ORDER_LINE, L_QTY_SD) > 0
    ensures UpdateStart(cfg, v)[L_QTY_SD] != Skipped(ORDER_LINE, cfg.Total(ORDER), v)[L_QTY_SD]
  {
    hide Iter, UpdateStart, NextRand;
    cfg.TotalPositive(ORDER);
    var total := cfg.Total(ORDER);
    var n, extra := total / 100 * 100, total % 100;
    UpdateStartStreams(cfg, v, L_QTY_SD);
    IterAdd(7 * extra, 7 * n, v[L_QTY_SD]);
    Period.FullPeriod(7 * extra, Iter(7 * n, v[L_QTY_SD]));
    assert 7 * extra + 7 * n == 7 * total;
  }

  /**
   * Two scales given after one another, 0.01 and 0.999, leave 14985 orders: the ten orders of an update set are drawn
   * 595 draws too early from the quantity stream, whatever the seeds.
   */
  lemma UpdatesLag(cfg: OrderConfig, v: Streams)
    requires cfg.orderBase == 1500000 * 10 / 1000 * 999 / 1000 && cfg.scale == 1
    ensures cfg.Total(ORDER) == 14985 && Refresh.UpdateRows(cfg) == 10
    ensures UpdateStart(cfg, v)[L_QTY_SD] != Skipped(ORDER_LINE, 14985, v)[L_QTY_SD]
    ensures Iter(595, UpdateStart(cfg, v)[L_QTY_SD]) == Skipped(ORDER_LINE, 14985, v)[L_QTY_SD]
  {
    hide Iter, UpdateStart, NextRand;
    LaggingStream(cfg, v);
    UpdateStartStreams(cfg, v, L_QTY_SD);
    IterAdd(595, 7 * 14900, v[L_QTY_SD]);
  }

  /**
   * In the multiple-of-100 case set u is drawn where further orders of the population would have been drawn: from
   * every stream as it is after all of the population and all earlier sets.
   */
  lemma SetsDrawBeyondPopulation(cfg: OrderConfig, u: nat, v: Streams)
    requires u >= 1 && cfg.Total(ORDER) % 100 == 0
    ensures cfg.Total(ORDER) >= 0
    ensures InsertSet(cfg, u, u - 1, UpdateStart(cfg, v)) ==
            Rows(cfg, ORDER_LINE, RowsOfSets(cfg, u - 1) + 1, Refresh.UpdateRows(cfg), u % 10000,
                 AfterRows(ORDER_LINE, cfg.Total(ORDER) + RowsOfSets(cfg, u - 1), v))
  {
    hide AfterRow, AfterRows, Rows, SkipPerRow, Skipped, Refresh.UpdateRows, UpdateStart, Settings.Total, RowsOfSets;
    hide Agree;
    cfg.TotalPositive(ORDER);
    var rc, total := Refresh.UpdateRows(cfg), cfg.Total(ORDER);
    var a := RowsOfSets(cfg, u - 1);
    UpdatesFollowPopulation(cfg, v);
    SkipReplacesRows(ORDER_LINE, total, v);
    AgreeMeet(ORDER_LINE, UpdateStart(cfg, v), AfterRows(ORDER_LINE, total, v), Skipped(ORDER_LINE, total, v));
    RowsAgree(ORDER_LINE, a, UpdateStart(cfg, v), AfterRows(ORDER_LINE, total, v));
    AfterRowsAdd(ORDER_LINE, total, a, v);
    SameOutput(cfg, ORDER_LINE, a + 1, rc, u % 10000,
               AfterRows(ORDER_LINE, a, UpdateStart(cfg, v)), AfterRows(ORDER_LINE, total + a, v));
  }
}
