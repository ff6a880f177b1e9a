/**
 * Seedless parallel generation: any chunk of any table can be started by skipping, and the chunks together are
 * what one process prints (driver.c, bm_utils.c, rnd.c, rnd.h).
 */
module Parallel {
  import opened ModArith
  import opened Rnd
  import opened Tables
  import opened Build
  import opened Runs
  import Calendar
  import Keys

  // ----- the draw budget -----

  lemma AddressDraws(v: Streams, s: int)
    requires IsStream(s)
    ensures 1 + CharDraws(Draw(v, s, 1, 10, 40)) <= 9
  {
    UnifIntRange(10, 40, Iter(1, v[s]));
  }

  lemma LineBudget(v: Streams)
    ensures 1 <= LineCount(v) <= O_LCNT_MAX
  {
    UnifIntRange(1, O_LCNT_MAX, Iter(1, v[O_LCNT_SD]));
  }

  /**
   * Whatever is drawn, no row takes more draws from a stream it pads than the stream's boundary: seven lines to an
   * order, 92 swaps for a colour name, nine draws for an address. The text pool, which the first comment of a process
   * fills with draws from stream 5, a stream of no table, is not counted.
   */
  lemma DrawBudget(t: int, v: Streams, s: int)
    requires IsTable(t) && IsStream(s) && Padded(t, s)
    ensures RowDraws(t, v, s) <= Boundary(s)
  {
    hide NextRand, UnifInt, Draw;
    LineBudget(v);
    AddressDraws(v, C_ADDR_SD);
    AddressDraws(v, S_ADDR_SD);
  }

  /** A padded row moves every stream that set_state skips for its table by exactly the skip. */
  lemma RowMovesBySkip(t: int, v: Streams, s: int)
    requires IsChunked(t) && IsStream(s) && SkipPerRow(t, s) > 0
    ensures Moved(t, s, RowDraws(t, v, s)) == SkipPerRow(t, s)
  {
    SkipIsBoundary(t, s);
    if Padded(t, s) {
      DrawBudget(t, v, s);
    }
  }

  // ----- output depends on the skipped streams alone -----

  /** v and w agree on the streams that set_state skips for table t. */
  ghost predicate Agree(t: int, v: Streams, w: Streams)
    requires IsChunked(t)
  {
    forall s :: IsStream(s) && SkipPerRow(t, s) > 0 ==> v[s] == w[s]
  }

  lemma AgreeMeet(t: int, v: Streams, w: Streams, x: Streams)
    requires IsChunked(t) && Agree(t, v, x) && Agree(t, w, x)
    ensures Agree(t, v, w)
  {
    hide SkipPerRow;
  }

  lemma {:induction false} SameShuffle(v: Streams, w: Streams, n: nat)
    requires v[P_NAME_SD] == w[P_NAME_SD] && n <= COLORS
    ensures ShuffleDraws(v, P_NAME_SD, 1, COLORS, n) == ShuffleDraws(w, P_NAME_SD, 1, COLORS, n)
  {
    if n > 0 { SameShuffle(v, w, n - 1); }
  }

  lemma {:induction false} SamePartSupps(cfg: Config, index: nat, v: Streams, w: Streams, n: nat)
    requires v[PS_QTY_SD] == w[PS_QTY_SD] && v[PS_SCST_SD] == w[PS_SCST_SD] && v[PS_CMNT_SD] == w[PS_CMNT_SD]
    ensures PartSuppRows(cfg, index, v, n) == PartSuppRows(cfg, index, w, n)
  {
    if n > 0 { SamePartSupps(cfg, index, v, w, n - 1); }
  }

  /** v and w agree on what the lines of an order depend on. */
  ghost predicate SameLineStreams(v: Streams, w: Streams)
  {
    v[O_ODATE_SD] == w[O_ODATE_SD] && v[O_LCNT_SD] == w[O_LCNT_SD] &&
    forall s :: L_QTY_SD <= s <= L_CMNT_SD ==> v[s] == w[s]
  }

  lemma {:induction false} SameCounts(v: Streams, w: Streams, n: nat)
    requires SameLineStreams(v, w)
    ensures ReturnedBefore(v, n) == ReturnedBefore(w, n) && ShippedBefore(v, n) == ShippedBefore(w, n)
    ensures LineCount(v) == LineCount(w) && OrderDate(v) == OrderDate(w)
  {
    hide Calendar.Julian, NextRand, UnifInt;
    if n > 0 { SameCounts(v, w, n - 1); }
  }

  lemma SameLine(cfg: OrderConfig, okey: int, v: Streams, w: Streams, k: nat)
    requires SameLineStreams(v, w)
    ensures LineRow(cfg, okey, v, k) == LineRow(cfg, okey, w, k)
  {
    hide NextRand, UnifInt, Settings.Total;
    SameCounts(v, w, k);
  }

  lemma {:induction false} SameLines(cfg: OrderConfig, okey: int, v: Streams, w: Streams, n: nat)
    requires SameLineStreams(v, w)
    ensures Lines(cfg, okey, v, n) == Lines(cfg, okey, w, n)
    ensures TotalCharge(cfg, okey, v, n) == TotalCharge(cfg, okey, w, n)
  {
    hide LineRow, Charge;
    if n > 0 {
      SameLines(cfg, okey, v, w, n - 1);
      SameLine(cfg, okey, v, w, n - 1);
    }
  }

  lemma SameOrder(cfg: OrderConfig, index: nat, upd: nat, v: Streams, w: Streams)
    requires Agree(ORDER, v, w)
    ensures OrderRow(cfg, index, upd, v) == OrderRow(cfg, index, upd, w)
  {
    hide NextRand, UnifInt, Lines, TotalCharge, LineCount, ShippedBefore;
    assert SameLineStreams(v, w);
    SameCounts(v, w, LineCount(v));
    SameLines(cfg, OrderRow(cfg, index, upd, v).okey, v, w, LineCount(v));
  }

  lemma OrderOutput(cfg: Config, t: int, index: nat, upd: nat, v: Streams, w: Streams)
    requires cfg.Covers(t) && MakesOrders(t) && Agree(t, v, w)
    ensures Print(t, MakeRow(cfg, t, index, upd, v)) == Print(t, MakeRow(cfg, t, index, upd, w))
  {
    hide NextRand, UnifInt, Lines, LineCount, OrderRow, TotalCharge, Keys.MkSparse, Generation, Settings.Total;
    assert SameLineStreams(v, w);
    SameCounts(v, w, 0);
    SameLines(cfg, Keys.MkSparse(index, Generation(upd)), v, w, LineCount(v));
    OrderKey(cfg, index, upd, v);
    OrderKey(cfg, index, upd, w);
    if t != LINE {
      assert Agree(ORDER, v, w);
      SameOrder(cfg, index, upd, v, w);
    }
  }

  lemma PartOutput(cfg: Config, t: int, index: nat, upd: nat, v: Streams, w: Streams)
    requires MakesParts(t) && Agree(t, v, w)
    ensures Print(t, MakeRow(cfg, t, index, upd, v)) == Print(t, MakeRow(cfg, t, index, upd, w))
  {
    hide NextRand, UnifInt, ShuffleDraws, PartSuppRows;
    if t != PSUPP { SameShuffle(v, w, COLORS); }
    SamePartSupps(cfg, index, v, w, SUPP_PER_PART);
  }

  /** What is printed of a row depends only on the streams that set_state skips for the table. */
  lemma OutputReadsSkipped(cfg: Config, t: int, index: nat, upd: nat, v: Streams, w: Streams)
    requires cfg.Covers(t) && IsChunked(t) && Agree(t, v, w)
    ensures Print(t, MakeRow(cfg, t, index, upd, v)) == Print(t, MakeRow(cfg, t, index, upd, w))
  {
    hide MakeRow, Print, Agree;
    if MakesOrders(t) {
      OrderOutput(cfg, t, index, upd, v, w);
    } else if MakesParts(t) {
      PartOutput(cfg, t, index, upd, v, w);
    } else {
      PersonOutput(cfg, t, index, upd, v, w);
    }
  }

  lemma PersonOutput(cfg: Config, t: int, index: nat, upd: nat, v: Streams, w: Streams)
    requires (t == CUST || t == SUPP) && Agree(t, v, w)
    ensures Print(t, MakeRow(cfg, t, index, upd, v)) == Print(t, MakeRow(cfg, t, index, upd, w))
  {
    hide NextRand, UnifInt, Pick, RawDraws, Settings.Total;
    if t == CUST {
      assert v[C_ADDR_SD] == w[C_ADDR_SD] && v[C_CMNT_SD] == w[C_CMNT_SD];
    } else {
      assert v[S_ADDR_SD] == w[S_ADDR_SD] && v[S_CMNT_SD] == w[S_CMNT_SD];
    }
  }

  lemma OrderKey(cfg: OrderConfig, index: nat, upd: nat, v: Streams)
    ensures OrderRow(cfg, index, upd, v).okey == Keys.MkSparse(index, Generation(upd))
  {}

  // ----- skipping replaces generating -----

  lemma StreamAfterRow(t: int, w: Streams, v: Live, s: int, n: nat)
    requires IsChunked(t) && IsStream(s) && SkipPerRow(t, s) > 0 && w[s] == Iter(SkipPerRow(t, s) * n, v)
    ensures AfterRow(t, w)[s] == Iter(SkipPerRow(t, s) * (n + 1), v)
  {
    hide SkipPerRow, RowDraws, Moved;
    var k := SkipPerRow(t, s);
    RowMovesBySkip(t, w, s);
    IterAdd(k, k * n, v);
    assert k + k * n == k * (n + 1);
  }

  lemma AfterRowIsSkip(t: int, v: Streams, w: Streams, n: nat)
    requires IsChunked(t) && Agree(t, w, Skipped(t, n, v))
    ensures Agree(t, AfterRow(t, w), Skipped(t, n + 1, v))
  {
    hide SkipPerRow, AfterRow;
    forall s | IsStream(s) && SkipPerRow(t, s) > 0
      ensures AfterRow(t, w)[s] == Skipped(t, n + 1, v)[s]
    {
      StreamAfterRow(t, w, v[s], s, n);
    }
  }

  lemma SkipNone(t: int, v: Streams)
    requires IsChunked(t)
    ensures Agree(t, v, Skipped(t, 0, v))
  {
    hide SkipPerRow;
    forall s | IsStream(s) && SkipPerRow(t, s) > 0 ensures v[s] == Skipped(t, 0, v)[s] {
      assert SkipPerRow(t, s) * 0 == 0 && Iter(0, v[s]) == v[s];
    }
  }

  /** n generated and padded rows leave the streams where skipping n rows does. */
  lemma {:induction false} SkipReplacesRows(t: int, n: nat, v: Streams)
    requires IsChunked(t)
    ensures Agree(t, AfterRows(t, n, v), Skipped(t, n, v))
  {
    hide SkipPerRow, AfterRow;
    if n == 0 {
      SkipNone(t, v);
    } else {
      SkipReplacesRows(t, n - 1, v);
      AfterRowIsSkip(t, v, AfterRows(t, n - 1, v), n - 1);
    }
  }

  lemma {:induction false} RowsAgree(t: int, n: nat, v: Streams, w: Streams)
    requires IsChunked(t) && Agree(t, v, w)
    ensures Agree(t, AfterRows(t, n, v), AfterRows(t, n, w))
  {
    SkipReplacesRows(t, n, v);
    SkipReplacesRows(t, n, w);
  }

  lemma {:induction false} SameOutput(cfg: Config, t: int, first: nat, n: nat, upd: nat, v: Streams, w: Streams)
    requires cfg.Covers(t) && IsChunked(t) && Agree(t, v, w)
    ensures Rows(cfg, t, first, n, upd, v) == Rows(cfg, t, first, n, upd, w)
  {
    hide MakeRow, Print, AfterRow, SkipPerRow;
    if n > 0 {
      SameOutput(cfg, t, first, n - 1, upd, v, w);
      RowsAgree(t, n - 1, v, w);
      OutputReadsSkipped(cfg, t, first + n - 1, upd, AfterRows(t, n - 1, v), AfterRows(t, n - 1, w));
    }
  }

  lemma {:induction false} AfterRowsAdd(t: int, a: nat, b: nat, v: Streams)
    requires IsTable(t)
    ensures AfterRows(t, a + b, v) == AfterRows(t, b, AfterRows(t, a, v))
  {
    hide AfterRow;
    if b > 0 {
      AfterRowsAdd(t, a, b - 1, v);
      assert a + b - 1 == a + (b - 1);
    }
  }

  /** A run can be cut anywhere. */
  lemma {:induction false} RowsSplit(cfg: Config, t: int, first: nat, a: nat, b: nat, upd: nat, v: Streams)
    requires cfg.Covers(t) && IsTable(t)
    ensures Rows(cfg, t, first, a + b, upd, v) ==
            Rows(cfg, t, first, a, upd, v) + Rows(cfg, t, first + a, b, upd, AfterRows(t, a, v))
  {
    hide MakeRow, Print, AfterRow;
    if b == 0 {
    } else {
      RowsSplit(cfg, t, first, a, b - 1, upd, v);
      AfterRowsAdd(t, a, b - 1, v);
    }
  }

  /** Cutting a run and starting its second part by skipping. */
  lemma ResumeBySkipping(cfg: Config, t: int, first: nat, a: nat, b: nat, upd: nat, v: Streams)
    requires cfg.Covers(t) && IsChunked(t)
    ensures Rows(cfg, t, first, a + b, upd, v) ==
            Rows(cfg, t, first, a, upd, v) + Rows(cfg, t, first + a, b, upd, Skipped(t, a, v))
  {
    hide MakeRow, Print, AfterRow, Skipped, Agree;
    RowsSplit(cfg, t, first, a, b, upd, v);
    SkipReplacesRows(t, a, v);
    SameOutput(cfg, t, first + a, b, upd, AfterRows(t, a, v), Skipped(t, a, v));
  }

  /** Any row of a table can be generated by itself, from the streams skipped over the rows before it. */
  lemma RowAlone(cfg: Config, t: int, v: Streams, i: nat)
    requires cfg.Covers(t) && IsChunked(t) && i < cfg.Total(t)
    ensures |Serial(cfg, t, v)| == cfg.Total(t)
    ensures Serial(cfg, t, v)[i] == Print(t, MakeRow(cfg, t, i + 1, 0, Skipped(t, i, v)))
  {
    hide MakeRow, Print, AfterRow, Skipped, Settings.Total;
    var n := cfg.Total(t);
    ResumeBySkipping(cfg, t, 1, i, n - i, 0, v);
    RowsSplit(cfg, t, 1 + i, 1, n - i - 1, 0, Skipped(t, i, v));
    OneRow(cfg, t, 1 + i, Skipped(t, i, v));
  }

  lemma OneRow(cfg: Config, t: int, first: nat, v: Streams)
    requires cfg.Covers(t) && IsTable(t)
    ensures Rows(cfg, t, first, 1, 0, v) == [Print(t, MakeRow(cfg, t, first, 0, v))]
  {
    hide MakeRow, Print, AfterRow;
    assert Rows(cfg, t, first, 0, 0, v) == [] && AfterRows(t, 0, v) == v;
  }

  // ----- how a table is cut -----

  /** Every chunk but the last has the even share of the rows, cut to a whole number. */
  lemma ChunksAreEven(cfg: Config, t: int, children: int, step: int, v: Streams)
    requires cfg.Covers(t) && IsChunked(t) && 1 <= step < children
    ensures var n := |Chunk(cfg, t, children, step, v)|; n * children <= cfg.Total(t) < (n + 1) * children
  {
    hide Rows, Skipped, Settings.Total;
    cfg.TotalPositive(t);
    var total := cfg.Total(t);
    assert total == total / children * children + total % children;
    assert (total / children + 1) * children == total / children * children + children;
  }

  /** A step past the last goes on where the table ends, if the chunks are even. */
  lemma PastChunkGoesOn(cfg: Config, t: int, children: int, step: int, v: Streams)
    requires cfg.Covers(t) && IsChunked(t) && 1 <= children < step && cfg.Total(t) % children == 0
    ensures var n := |PastChunk(cfg, t, children, step, v)|;
            n * children == cfg.Total(t) && n * (step - 1) >= 0 &&
            PastChunk(cfg, t, children, step, v) ==
            Rows(cfg, t, n * (step - 1) + 1, n, 0, AfterRows(t, n * (step - 1), v))
  {
    hide Rows, Skipped, SkippedPast, Settings.Total, AfterRows, Agree;
    cfg.TotalPositive(t);
    var n := ChunkRows(cfg, t, children);
    assert n * children == cfg.Total(t);
    MulMono(0, n, step - 1);
    var k := n * (step - 1);
    SkippedPastEven(t, k, v);
    SkipReplacesRows(t, k, v);
    SameOutput(cfg, t, k + 1, n, 0, AfterRows(t, k, v), Skipped(t, k, v));
  }

  lemma SkippedPastEven(t: int, n: nat, v: Streams)
    requires IsChunked(t)
    ensures SkippedPast(t, n, 0, v) == Skipped(t, n, v)
  {
    hide SkipPerRow, GenSeed;
    forall s | IsStream(s) ensures SkippedPast(t, n, 0, v)[s] == Skipped(t, n, v)[s] {
      assert GenSeed(t, 0, s) * 0 == 0 && Iter(0, Iter(SkipPerRow(t, s) * n, v[s])) == Iter(SkipPerRow(t, s) * n, v[s]);
    }
  }

  // ----- the theorem -----

  /** The outputs of chunks 1..k, one after the other. */
  function Chunks(cfg: Config, t: int, children: int, k: nat, v: Streams): seq<Printed>
    requires cfg.Covers(t) && IsChunked(t) && k <= children
  {
    if k == 0 then [] else Chunks(cfg, t, children, k - 1, v) + Chunk(cfg, t, children, k, v)
  }

  lemma {:induction false} FullChunks(cfg: Config, t: int, children: int, k: nat, v: Streams)
    requires cfg.Covers(t) && IsChunked(t) && k < children
    ensures Chunks(cfg, t, children, k, v) == Rows(cfg, t, 1, ChunkRows(cfg, t, children) * k, 0, v)
  {
    hide MakeRow, Print, AfterRow, Skipped, ChunkRows;
    if k > 0 {
      var n := ChunkRows(cfg, t, children);
      FullChunks(cfg, t, children, k - 1, v);
      assert n * (k - 1) + n == n * k;
      ResumeBySkipping(cfg, t, 1, n * (k - 1), n, 0, v);
    }
  }

  /**
   * For every table, scale and number of chunks, and whatever values the streams start from, the chunks printed by
   * independent processes are, one after the other, exactly what a single process prints.
   */
  lemma ParallelEqualsSerial(cfg: Config, t: int, children: int, v: Streams)
    requires cfg.Covers(t) && IsChunked(t) && children >= 1
    ensures Chunks(cfg, t, children, children, v) == Serial(cfg, t, v)
  {
    hide MakeRow, Print, AfterRow, Skipped, Settings.Total, Rows;
    var n := ChunkRows(cfg, t, children);
    var last := ChunkSize(cfg, t, children, children);
    FullChunks(cfg, t, children, children - 1, v);
    assert n * (children - 1) + last == cfg.Total(t) by {
      assert cfg.Total(t) == n * children + cfg.Total(t) % children;
      assert n * (children - 1) == n * children - n;
    }
    ResumeBySkipping(cfg, t, 1, n * (children - 1), last, 0, v);
  }

  // ----- one half of a pair, generated alone -----

  /** The pair of tables that t is half of. */
  function Pair(t: int): int
  {
    if t == ORDER || t == LINE then ORDER_LINE else if t == PART || t == PSUPP then PART_PSUPP else t
  }

  lemma HalfSkips(t: int, s: int)
    requires IsChunked(t) && IsStream(s) && SkipPerRow(t, s) > 0
    ensures SkipPerRow(Pair(t), s) == SkipPerRow(t, s)
  {}

  /** What a table prints of a row: its half of a pair, or all of it. */
  predicate IsHalf(t: int, row: Row, out: Printed)
    requires IsTable(t)
  {
    (t == PART ==> row.PartMade? && out == PartOnly(row.p)) &&
    (t == PSUPP ==> row.PartMade? && out == PartSuppOnly(row.ps)) &&
    (t == PART_PSUPP ==> row.PartMade? && out == Whole(row)) &&
    (t == ORDER ==> row.OrderMade? && out == OrderOnly(row.o)) &&
    (t == LINE ==> row.OrderMade? && out == LinesOnly(row.ls)) &&
    (t == ORDER_LINE ==> row.OrderMade? && out == Whole(row)) &&
    (t == SUPP ==> row.SupplierMade? && out == Whole(row)) &&
    (t == CUST ==> row.CustomerMade? && out == Whole(row)) &&
    (t == NATION || t == REGION ==> row.CodeMade? && out == Whole(row))
  }

  lemma PrintsHalf(cfg: Config, t: int, index: nat, upd: nat, v: Streams)
    requires IsTable(t) && cfg.Covers(t)
    ensures var row := MakeRow(cfg, t, index, upd, v); IsHalf(t, row, Print(t, row))
  {
    hide OrderRow, Lines, LineCount, PartRow, PartSuppRows, SupplierRow, CustomerRow, CodeRow;
  }

  /**
   * A table generated alone is its half of the pair generated together, row by row, even though a lineitem run pads
   * only lineitem streams and a partsupp run only partsupp streams: an order takes exactly one date and one line count.
   */
  lemma {:induction false} HalfOfPair(cfg: Config, t: int, first: nat, n: nat, upd: nat, v: Streams)
    requires cfg.Covers(t) && IsChunked(t)
    ensures forall i :: 0 <= i < n ==>
              Rows(cfg, Pair(t), first, n, upd, v)[i].Whole? &&
              IsHalf(t, Rows(cfg, Pair(t), first, n, upd, v)[i].row, Rows(cfg, t, first, n, upd, v)[i])
  {
    hide AfterRow, SkipPerRow, MakeRow, Print, IsHalf;
    if n > 0 {
      HalfOfPair(cfg, t, first, n - 1, upd, v);
      var w, pair := AfterRows(t, n - 1, v), AfterRows(Pair(t), n - 1, v);
      SkipReplacesRows(t, n - 1, v);
      SkipReplacesRows(Pair(t), n - 1, v);
      forall s | IsStream(s) && SkipPerRow(t, s) > 0 ensures w[s] == pair[s] {
        HalfSkips(t, s);
      }
      OutputReadsSkipped(cfg, t, first + n - 1, upd, w, pair);
      SameMaker(cfg, t, first + n - 1, upd, pair);
      PrintsHalf(cfg, t, first + n - 1, upd, pair);
    }
  }

  lemma SameMaker(cfg: Config, t: int, index: nat, upd: nat, v: Streams)
    requires cfg.Covers(t) && IsChunked(t)
    ensures MakeRow(cfg, t, index, upd, v) == MakeRow(cfg, Pair(t), index, upd, v)
    ensures Print(Pair(t), MakeRow(cfg, t, index, upd, v)) == Whole(MakeRow(cfg, t, index, upd, v))
  {
    hide OrderRow, Lines, PartRow, PartSuppRows, SupplierRow, CustomerRow;
  }

  /** Chunked generation of one table alone prints its half of what one process prints for the pair. */
  lemma ChunkedHalf(cfg: Config, t: int, children: int, v: Streams, i: nat)
    requires cfg.Covers(t) && IsChunked(t) && children >= 1 && i < cfg.Total(t)
    ensures |Chunks(cfg, t, children, children, v)| == |Serial(cfg, Pair(t), v)| == cfg.Total(t)
    ensures Serial(cfg, Pair(t), v)[i].Whole?
    ensures IsHalf(t, Serial(cfg, Pair(t), v)[i].row, Chunks(cfg, t, children, children, v)[i])
  {
    hide AfterRow, SkipPerRow, MakeRow, Print, Chunks, IsHalf;
    assert cfg.Base(t) == cfg.Base(Pair(t));
    ParallelEqualsSerial(cfg, t, children, v);
    HalfOfPair(cfg, t, 1, cfg.Total(t), 0, v);
  }
}
