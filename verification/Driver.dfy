/** Whole processes: all selected tables in turn, and the update sets (driver.c). */
module Driver {
  import opened Rnd
  import opened Tables
  import opened Build
  import opened Runs
  import opened Parallel
  import opened Generator

  // ----- the selected tables do not disturb one another -----

  /** Tables built by the same row maker, and their streams. */
  function Family(t: int): int
  {
    if t == ORDER || t == LINE || t == ORDER_LINE then ORDER
    else if t == PART || t == PSUPP || t == PART_PSUPP then PART
    else t
  }

  /** Every selection the options allow: a single table, both code tables, or the default of one per family. */
  predicate Selectable(selected: set<int>)
  {
    (forall t :: t in selected ==> IsTable(t)) &&
    forall a, b :: a in selected && b in selected && a != b ==> Family(a) != Family(b)
  }

  /** The streams that the output of t depends on. */
  predicate Owns(t: int, s: int)
    requires IsTable(t)
  {
    if IsChunked(t) then SkipPerRow(t, s) > 0 else s == if t == NATION then N_CMNT_SD else R_CMNT_SD
  }

  lemma ForeignRow(t: int, v: Streams, s: int)
    requires IsTable(t) && IsStream(s) && StreamTable(s) != NONE && Family(StreamTable(s)) != Family(t)
    ensures AfterRow(t, v)[s] == v[s]
    ensures IsChunked(t) ==> SkipPerRow(t, s) == 0
  {
    hide NextRand, UnifInt;
    assert RowDraws(t, v, s) == 0;
    assert !Padded(t, s);
  }

  lemma {:induction false} ForeignRows(t: int, n: nat, v: Streams, s: int)
    requires IsTable(t) && IsStream(s) && StreamTable(s) != NONE && Family(StreamTable(s)) != Family(t)
    ensures AfterRows(t, n, v)[s] == v[s]
  {
    hide AfterRow, StreamTable, Family;
    if n > 0 {
      ForeignRows(t, n - 1, v, s);
      ForeignRow(t, AfterRows(t, n - 1, v), s);
    }
  }

  lemma OwnedStream(t: int, s: int)
    requires IsTable(t) && IsStream(s) && Owns(t, s)
    ensures StreamTable(s) != NONE && Family(StreamTable(s)) == Family(t)
  {}

  /** v and w agree on what the output of table t depends on. */
  ghost predicate OwnAgree(t: int, v: Streams, w: Streams)
    requires IsTable(t)
  {
    forall s :: IsStream(s) && Owns(t, s) ==> v[s] == w[s]
  }

  lemma ForeignTable(t: int, other: int, n: nat, v: Streams, w: Streams)
    requires IsTable(t) && IsTable(other) && Family(t) != Family(other) && OwnAgree(t, v, w)
    ensures OwnAgree(t, AfterRows(other, n, v), w)
  {
    hide AfterRow, StreamTable, Family, Owns, AfterRows;
    forall s | IsStream(s) && Owns(t, s) ensures AfterRows(other, n, v)[s] == w[s] {
      OwnedStream(t, s);
      ForeignRows(other, n, v, s);
    }
  }

  lemma ForeignSkip(t: int, other: int, n: nat, v: Streams, w: Streams)
    requires IsTable(t) && IsChunked(other) && Family(t) != Family(other) && OwnAgree(t, v, w)
    ensures OwnAgree(t, Skipped(other, n, v), w)
  {
    hide AfterRow, StreamTable, Family, Owns, SkipPerRow, Skipped;
    forall s | IsStream(s) && Owns(t, s) ensures Skipped(other, n, v)[s] == w[s] {
      OwnedStream(t, s);
      ForeignRow(other, v, s);
      StillSkipped(other, n, v, s);
    }
  }

  /** The table's own routine moves no stream that the skip of a row does not. */
  lemma OwnSkipWithin(t: int, s: int)
    requires IsChunked(t) && IsStream(s) && SkipPerRow(t, s) == 0
    ensures Tables.GenSeed(t, 0, s) == 0
  {}

  lemma ForeignSkipPast(t: int, other: int, n: nat, extra: nat, v: Streams, w: Streams)
    requires IsTable(t) && IsChunked(other) && Family(t) != Family(other) && OwnAgree(t, v, w)
    ensures OwnAgree(t, SkippedPast(other, n, extra, v), w)
  {
    hide AfterRow, StreamTable, Family, Owns, SkipPerRow, Tables.GenSeed, SkippedPast;
    forall s | IsStream(s) && Owns(t, s) ensures SkippedPast(other, n, extra, v)[s] == w[s] {
      OwnedStream(t, s);
      ForeignRow(other, v, s);
      OwnSkipWithin(other, s);
      StillPast(other, n, extra, v, s);
    }
  }

  lemma StillPast(t: int, n: nat, extra: nat, v: Streams, s: int)
    requires IsChunked(t) && IsStream(s) && SkipPerRow(t, s) == 0 && Tables.GenSeed(t, 0, s) == 0
    ensures SkippedPast(t, n, extra, v)[s] == v[s]
  {
    hide SkipPerRow, Tables.GenSeed;
    assert SkipPerRow(t, s) * n == 0 && Tables.GenSeed(t, 0, s) * extra == 0;
  }

  lemma StillSkipped(t: int, n: nat, v: Streams, s: int)
    requires IsChunked(t) && IsStream(s) && SkipPerRow(t, s) == 0
    ensures Skipped(t, n, v)[s] == v[s]
  {
    hide SkipPerRow;
    assert SkipPerRow(t, s) * n == 0;
  }

  // ----- one process -----

  /** The steps a process can be given: with a single process the step is not looked at. */
  predicate IsStep(children: int, step: int)
  {
    children > 1 ==> step >= 0
  }

  /** What a process prints for one table, by itself and from the values v. */
  function TableOutput(cfg: Config, t: int, children: int, step: int, v: Streams): seq<Printed>
    requires cfg.Covers(t) && IsTable(t) && IsStep(children, step)
  {
    if children > 1 && IsChunked(t) then
      if step == 0 then []
      else if step <= children then Chunk(cfg, t, children, step, v)
      else PastChunk(cfg, t, children, step, v)
    else if IsChunked(t) then Serial(cfg, t, v)
    else Rows(cfg, t, 1, cfg.Base(t), 0, v)
  }

  /** How many rows a single process prints of every table. */
  lemma RowCounts(cfg: OrderConfig, t: int, v: Streams)
    requires IsTable(t)
    ensures |TableOutput(cfg, t, 1, 1, v)| ==
            if t == PART || t == PSUPP || t == PART_PSUPP then cfg.partBase * cfg.scale
            else if t == ORDER || t == LINE || t == ORDER_LINE then cfg.orderBase * cfg.scale
            else if t == SUPP then cfg.suppBase * cfg.scale
            else if t == CUST then cfg.custBase * cfg.scale
            else if t == NATION then cfg.nations else cfg.regions
  {
    hide Rows;
  }

  /** With several processes, step 0 prints nothing of a table that is cut, and every step all of the code tables. */
  lemma OddSteps(cfg: OrderConfig, t: int, children: int, step: int, v: Streams)
    requires IsTable(t) && children > 1 && step >= 0
    ensures IsChunked(t) ==> TableOutput(cfg, t, children, 0, v) == []
    ensures !IsChunked(t) ==> TableOutput(cfg, t, children, step, v) == TableOutput(cfg, t, 1, 1, v)
    ensures IsChunked(t) && step > children ==>
              |TableOutput(cfg, t, children, step, v)| * children <= cfg.Total(t) <
              (|TableOutput(cfg, t, children, step, v)| + 1) * children
  {
    hide Rows, Settings.Total, Chunk, SkippedPast;
    if IsChunked(t) && step > children {
      cfg.TotalPositive(t);
      var total := cfg.Total(t);
      assert total == total / children * children + total % children;
      assert (total / children + 1) * children == total / children * children + children;
    }
  }

  lemma SameCode(cfg: Config, t: int, index: nat, v: Streams, w: Streams)
    requires IsTable(t) && !IsChunked(t) && OwnAgree(t, v, w)
    ensures Print(t, MakeRow(cfg, t, index, 0, v)) == Print(t, MakeRow(cfg, t, index, 0, w))
    ensures OwnAgree(t, AfterRow(t, v), AfterRow(t, w))
  {
    hide NextRand, UnifInt;
    assert Owns(t, if t == NATION then N_CMNT_SD else R_CMNT_SD);
  }

  lemma {:induction false} SameCodes(cfg: Config, t: int, first: nat, n: nat, v: Streams, w: Streams)
    requires IsTable(t) && !IsChunked(t) && OwnAgree(t, v, w)
    ensures Rows(cfg, t, first, n, 0, v) == Rows(cfg, t, first, n, 0, w)
    ensures OwnAgree(t, AfterRows(t, n, v), AfterRows(t, n, w))
  {
    hide MakeRow, Print, AfterRow, OwnAgree;
    if n > 0 {
      SameCodes(cfg, t, first, n - 1, v, w);
      SameCode(cfg, t, first + n - 1, AfterRows(t, n - 1, v), AfterRows(t, n - 1, w));
    }
  }

  lemma SameTableOutput(cfg: Config, t: int, children: int, step: int, v: Streams, w: Streams)
    requires cfg.Covers(t) && IsTable(t) && IsStep(children, step) && OwnAgree(t, v, w)
    ensures TableOutput(cfg, t, children, step, v) == TableOutput(cfg, t, children, step, w)
  {
    hide MakeRow, Print, AfterRow, SkipPerRow, Tables.GenSeed, Rows;
    if IsChunked(t) {
      assert Agree(t, v, w);
      cfg.TotalPositive(t);
      if children > 1 && step > 0 {
        var per := ChunkRows(cfg, t, children);
        var n := per * (step - 1);
        if step <= children {
          assert Agree(t, Skipped(t, n, v), Skipped(t, n, w));
          SameOutput(cfg, t, n + 1, ChunkSize(cfg, t, children, step), 0, Skipped(t, n, v), Skipped(t, n, w));
        } else {
          var extra := cfg.Total(t) % children;
          assert Agree(t, SkippedPast(t, n, extra, v), SkippedPast(t, n, extra, w));
          SameOutput(cfg, t, n + 1, per, 0, SkippedPast(t, n, extra, v), SkippedPast(t, n, extra, w));
        }
      } else {
        SameOutput(cfg, t, 1, cfg.Total(t), 0, v, w);
      }
    } else {
      SameCodes(cfg, t, 1, cfg.Base(t), v, w);
    }
  }

  function AfterTable(cfg: Config, t: int, children: int, step: int, v: Streams): Streams
    requires IsTable(t) && IsStep(children, step)
  {
    if children > 1 && IsChunked(t) then
      if step == 0 then v
      else if step <= children then AfterChunk(cfg, t, children, step, v)
      else AfterPast(cfg, t, children, step, v)
    else if IsChunked(t) then
      cfg.TotalPositive(t);
      AfterRows(t, cfg.Total(t), v)
    else AfterRows(t, cfg.Base(t), v)
  }

  lemma ForeignBuilt(cfg: Config, t: int, other: int, children: int, step: int, v: Streams, w: Streams)
    requires IsTable(t) && IsTable(other) && Family(t) != Family(other) && OwnAgree(t, v, w) && IsStep(children, step)
    ensures OwnAgree(t, AfterTable(cfg, other, children, step, v), w)
  {
    hide AfterRow, StreamTable, Family, Owns, AfterRows, Skipped, SkippedPast, OwnAgree;
    if IsChunked(other) {
      cfg.TotalPositive(other);
      if children > 1 && step > 0 {
        var per := ChunkRows(cfg, other, children);
        var n := per * (step - 1);
        if step <= children {
          ForeignSkip(t, other, n, v, w);
          ForeignTable(t, other, ChunkSize(cfg, other, children, step), Skipped(other, n, v), w);
        } else {
          var extra := cfg.Total(other) % children;
          ForeignSkipPast(t, other, n, extra, v, w);
          ForeignTable(t, other, per, SkippedPast(other, n, extra, v), w);
        }
      } else {
        ForeignTable(t, other, cfg.Total(other), v, w);
      }
    } else {
      ForeignTable(t, other, cfg.Base(other), v, w);
    }
  }

  /** One selected table: what its step calls for when there are several processes, all of it otherwise. */
  method BuildTable(g: Dbgen, t: int, children: int, step: int) returns (out: seq<Printed>)
    requires g.Valid() && g.cfg.Covers(t) && IsTable(t) && IsStep(children, step)
    modifies g.seed, g`used, g`start
    ensures g.Valid() && out == TableOutput(g.cfg, t, children, step, old(g.Values()))
    ensures g.Values() == AfterTable(g.cfg, t, children, step, old(g.Values()))
  {
    hide MakeRow, Print, AfterRow, Skipped;
    if children > 1 && t < NATION {
      out := g.PartialTable(t, children, step);
    } else {
      g.cfg.TotalPositive(t);
      var rowcnt := if t < NATION then g.cfg.Total(t) else g.cfg.Base(t);
      var rows, modes := g.GenTbl(t, 1, rowcnt, 0, 0, false);
      out := rows;
    }
  }

  /** The part of main that builds tables: entry t of out is the file of table t. */
  method BuildTables(g: Dbgen, selected: set<int>, children: int, step: int) returns (out: map<int, seq<Printed>>)
    requires g.Valid() && Selectable(selected) && IsStep(children, step)
    requires forall t :: t in selected ==> g.cfg.Covers(t)
    modifies g.seed, g`used, g`start
    ensures g.Valid() && forall t :: t in out <==> t in selected
    ensures forall t :: t in selected ==> out[t] == TableOutput(g.cfg, t, children, step, old(g.Values()))
  {
    hide TableOutput, AfterTable, OwnAgree, Family;
    ghost var v := g.Values();
    assert forall t | t in selected :: OwnAgree(t, v, v) by { OwnAgreeRefl(selected, v); }
    out := map[];
    var i := PART;
    while i <= REGION
      invariant PART <= i <= REGION + 1 && g.Valid()
      invariant forall t :: t in out <==> t in selected && t < i
      invariant forall t :: t in out ==> out[t] == TableOutput(g.cfg, t, children, step, v)
      invariant forall t :: t in selected && t >= i ==> OwnAgree(t, g.Values(), v)
    {
      if i in selected {
        ghost var w := g.Values();
        SameTableOutput(g.cfg, i, children, step, w, v);
        forall t | t in selected && t > i ensures OwnAgree(t, AfterTable(g.cfg, i, children, step, w), v) {
          ForeignBuilt(g.cfg, t, i, children, step, w, v);
        }
        var rows := BuildTable(g, i, children, step);
        out := out[i := rows];
      }
      i := i + 1;
    }
    assert forall t | t in selected :: t in out;
  }

  lemma OwnAgreeRefl(selected: set<int>, v: Streams)
    requires forall t :: t in selected ==> IsTable(t)
    ensures forall t | t in selected :: OwnAgree(t, v, v)
  {}

  // ----- all processes -----

  /** What `children` processes print for one table, one process after the other. */
  function AllProcesses(cfg: Config, t: int, children: int, k: nat, v: Streams): seq<Printed>
    requires cfg.Covers(t) && IsTable(t) && children >= 1 && k <= children
  {
    if k == 0 then [] else AllProcesses(cfg, t, children, k - 1, v) + TableOutput(cfg, t, children, k, v)
  }

  lemma {:induction false} ProcessesAreChunks(cfg: Config, t: int, children: int, k: nat, v: Streams)
    requires cfg.Covers(t) && IsChunked(t) && children > 1 && k <= children
    ensures AllProcesses(cfg, t, children, k, v) == Chunks(cfg, t, children, k, v)
  {
    hide Chunk, Serial, Rows;
    if k > 0 { ProcessesAreChunks(cfg, t, children, k - 1, v); }
  }

  /**
   * Every process started with its own step, from the same declared seeds and knowing nothing of the others, prints
   * its share: put together, the shares of a table are what one process alone prints. The small code tables are
   * printed in full by every process.
   */
  lemma ProcessesEqualOne(cfg: Config, t: int, children: int, v: Streams)
    requires cfg.Covers(t) && IsTable(t) && children >= 1
    ensures IsChunked(t) ==> AllProcesses(cfg, t, children, children, v) == TableOutput(cfg, t, 1, 1, v)
    ensures !IsChunked(t) ==> forall step :: 1 <= step <= children ==>
              TableOutput(cfg, t, children, step, v) == TableOutput(cfg, t, 1, 1, v)
  {
    hide Chunk, Serial, Rows;
    if IsChunked(t) {
      if children > 1 {
        ProcessesAreChunks(cfg, t, children, children, v);
        ParallelEqualsSerial(cfg, t, children, v);
      } else {
        assert AllProcesses(cfg, t, 1, 0, v) == [];
      }
    }
  }
}
