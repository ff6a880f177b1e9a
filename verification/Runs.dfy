/** Whole runs as functions of the stream values they start from (driver.c, rnd.c, bm_utils.c). */
module Runs {
  import opened Rnd
  import opened Tables
  import opened Build
  import InsertSegments

  datatype Row =
    | CustomerMade(c: Customer)
    | SupplierMade(s: Supplier)
    | PartMade(p: Part, ps: seq<PartSupp>)
    | OrderMade(o: Order, ls: seq<Line>)
    | CodeMade(code: Code)

  /** What reaches the output files: the master rows, the detail rows, or both. */
  datatype Printed =
    | Whole(row: Row)
    | PartOnly(p: Part)
    | PartSuppOnly(ps: seq<PartSupp>)
    | OrderOnly(o: Order)
    | LinesOnly(ls: seq<Line>)

  function MakeRow(cfg: Config, t: int, index: nat, upd: nat, v: Streams): Row
    requires IsTable(t) && cfg.Covers(t)
  {
    if MakesOrders(t) then
      var o := OrderRow(cfg, index, upd, v);
      OrderMade(o, Lines(cfg, o.okey, v, LineCount(v)))
    else if MakesParts(t) then PartMade(PartRow(cfg, index, v), PartSuppRows(cfg, index, v, SUPP_PER_PART))
    else if t == SUPP then SupplierMade(SupplierRow(cfg, index, v))
    else if t == CUST then CustomerMade(CustomerRow(cfg, index, v))
    else CodeMade(CodeRow(if t == NATION then N_CMNT_SD else R_CMNT_SD, index, v))
  }

  /** The routine that presents a row: the tables that are half of a pair print only their half. */
  function Print(t: int, row: Row): Printed
  {
    match row
    case OrderMade(o, ls) => if t == ORDER then OrderOnly(o) else if t == LINE then LinesOnly(ls) else Whole(row)
    case PartMade(p, ps) => if t == PART then PartOnly(p) else if t == PSUPP then PartSuppOnly(ps) else Whole(row)
    case _ => Whole(row)
  }

  /** Draws a row of table t takes from stream s when the streams start at v. */
  function RowDraws(t: int, v: Streams, s: int): nat
    requires IsTable(t)
  {
    if MakesOrders(t) then OrderDraws(v, LineCount(v), s)
    else if MakesParts(t) then PartDraws(SUPP_PER_PART, s)
    else if t == SUPP then SupplierDraws(v, s)
    else if t == CUST then CustomerDraws(v, s)
    else if t == NATION then (if s == N_CMNT_SD then 2 else 0)
    else (if s == R_CMNT_SD then 2 else 0)
  }

  /** What row_stop leaves of a row that took `draws`: padded streams are brought up to their boundary, never back. */
  function Moved(t: int, s: int, draws: nat): nat
  {
    if Padded(t, s) && Boundary(s) > draws then Boundary(s) else draws
  }

  function AfterRow(t: int, v: Streams): Streams
    requires IsTable(t)
  {
    Tabulate((s: int) => if IsStream(s) then Iter(Moved(t, s, RowDraws(t, v, s)), v[s]) else 1)
  }

  function AfterRows(t: int, n: nat, v: Streams): Streams
    requires IsTable(t)
  {
    if n == 0 then v else AfterRow(t, AfterRows(t, n - 1, v))
  }

  /** The output of gen_tbl for n rows of table t from index `first` on. */
  function Rows(cfg: Config, t: int, first: nat, n: nat, upd: nat, v: Streams): (out: seq<Printed>)
    requires IsTable(t) && cfg.Covers(t)
    ensures |out| == n
  {
    if n == 0 then [] else
      Rows(cfg, t, first, n - 1, upd, v) + [Print(t, MakeRow(cfg, t, first + n - 1, upd, AfterRows(t, n - 1, v)))]
  }

  /**
   * The update numbers that gen_tbl presents n of count rows under: only orders are split over files, and the rows of
   * the code tables are always presented under 0.
   */
  function LoaderModes(t: int, count: nat, segs: nat, upd: nat, n: nat): seq<nat>
  {
    InsertSegments.Modes(count, if MakesOrders(t) then segs else 0, if IsChunked(t) then upd else 0, n)
  }

  /** Only orders of an update set are spread over files; the rows of the code tables belong to no set. */
  lemma ModesOfRows(t: int, count: nat, segs: nat, upd: nat, n: nat, k: nat)
    requires k < n
    ensures |LoaderModes(t, count, segs, upd, n)| == n
    ensures LoaderModes(t, count, segs, upd, n)[k] ==
            if !IsChunked(t) then 0
            else if MakesOrders(t) then InsertSegments.Modes(count, segs, upd, n)[k] else upd
  {
    hide InsertSegments.Modes;
    InsertSegments.ModesAt(count, if MakesOrders(t) then segs else 0, if IsChunked(t) then upd else 0, n, k);
  }

  lemma NoRowsYet(cfg: Config, t: int, first: nat, count: nat, segs: nat, upd: nat, v: Streams)
    requires IsTable(t) && cfg.Covers(t)
    ensures Rows(cfg, t, first, 0, upd, v) == [] && AfterRows(t, 0, v) == v && LoaderModes(t, count, segs, upd, 0) == []
  {}

  lemma OneMoreRow(cfg: Config, t: int, first: nat, n: nat, upd: nat, v: Streams)
    requires IsTable(t) && cfg.Covers(t)
    ensures var w := AfterRows(t, n, v);
            AfterRows(t, n + 1, v) == AfterRow(t, w) &&
            Rows(cfg, t, first, n + 1, upd, v) ==
            Rows(cfg, t, first, n, upd, v) + [Print(t, MakeRow(cfg, t, first + n, upd, w))]
  {
    hide MakeRow, Print, AfterRow;
  }

  lemma OneMoreMode(t: int, count: nat, segs: nat, upd: nat, n: nat)
    ensures LoaderModes(t, count, segs, upd, n + 1) ==
            LoaderModes(t, count, segs, upd, n) +
            [if MakesOrders(t) && segs > 0 && upd > 0 then InsertSegments.Counters(count, segs, upd, n + 1).0
             else if IsChunked(t) then upd else 0]
  {
    hide InsertSegments.Counters;
  }

  /** n rows of table t skipped by the sd_ routines. */
  function Skipped(t: int, n: nat, v: Streams): Streams
    requires IsChunked(t)
  {
    Tabulate((s: int) => if IsStream(s) then Iter(SkipPerRow(t, s) * n, v[s]) else 1)
  }

  /** n rows of table t skipped, and then `extra` more by the table's own routine alone. */
  function SkippedPast(t: int, n: nat, extra: nat, v: Streams): Streams
    requires IsChunked(t)
  {
    Tabulate((s: int) => if IsStream(s) then Iter(GenSeed(t, 0, s) * extra, Iter(SkipPerRow(t, s) * n, v[s])) else 1)
  }

  // ----- chunks -----

  function ChunkRows(cfg: Config, t: int, children: int): nat
    requires children >= 1
  {
    cfg.TotalPositive(t);
    cfg.Total(t) / children
  }

  /** Rows of chunk `step`: the last chunk takes the remainder. */
  function ChunkSize(cfg: Config, t: int, children: int, step: int): nat
    requires 1 <= step <= children
  {
    ChunkRows(cfg, t, children) + (if step == children then cfg.Total(t) % children else 0)
  }

  /** What the process for chunk `step` of `children` prints. */
  function Chunk(cfg: Config, t: int, children: int, step: int, v: Streams): seq<Printed>
    requires IsChunked(t) && cfg.Covers(t) && 1 <= step <= children
  {
    var n := ChunkRows(cfg, t, children);
    Rows(cfg, t, n * (step - 1) + 1, ChunkSize(cfg, t, children, step), 0, Skipped(t, n * (step - 1), v))
  }

  /** What a process for a step past the last prints: the rows after all of the table, as many as a chunk has. */
  function PastChunk(cfg: Config, t: int, children: int, step: int, v: Streams): seq<Printed>
    requires IsChunked(t) && cfg.Covers(t) && 1 <= children < step
  {
    var n := ChunkRows(cfg, t, children);
    cfg.TotalPositive(t);
    Rows(cfg, t, n * (step - 1) + 1, n, 0, SkippedPast(t, n * (step - 1), cfg.Total(t) % children, v))
  }

  /** Where the streams are when such a process is done with the table. */
  function AfterPast(cfg: Config, t: int, children: int, step: int, v: Streams): Streams
    requires IsChunked(t) && 1 <= children < step
  {
    var n := ChunkRows(cfg, t, children);
    cfg.TotalPositive(t);
    AfterRows(t, n, SkippedPast(t, n * (step - 1), cfg.Total(t) % children, v))
  }

  /** Where the streams are when the process for a chunk is done with the table. */
  function AfterChunk(cfg: Config, t: int, children: int, step: int, v: Streams): Streams
    requires IsChunked(t) && 1 <= step <= children
  {
    AfterRows(t, ChunkSize(cfg, t, children, step), Skipped(t, ChunkRows(cfg, t, children) * (step - 1), v))
  }

  /** What a single process prints. */
  function Serial(cfg: Config, t: int, v: Streams): seq<Printed>
    requires IsChunked(t) && cfg.Covers(t)
  {
    cfg.TotalPositive(t);
    Rows(cfg, t, 1, cfg.Total(t), 0, v)
  }
}
