/** The generated files themselves: the orders of the population and of the update sets carry the refresh keys. */
module RefreshFiles {
  import opened Rnd
  import opened Tables
  import opened Build
  import opened Runs
  import Keys
  import Parallel
  import Refresh
  import Segments
  import Updates

  /** The order keys in a file of orders with their lines. */
  ghost function OrderKeys(file: seq<Printed>): set<int>
  {
    if file == [] then {}
    else
      var last := file[|file| - 1];
      OrderKeys(file[..|file| - 1]) + (if last.Whole? && last.row.OrderMade? then {last.row.o.okey} else {})
  }

  ghost function KeysIn(file: seq<nat>): set<int>
  {
    set k | k in file
  }

  lemma OneMoreOrder(file: seq<Printed>, o: Order, ls: seq<Line>)
    ensures OrderKeys(file + [Whole(OrderMade(o, ls))]) == OrderKeys(file) + {o.okey}
  {
    assert (file + [Whole(OrderMade(o, ls))])[..|file|] == file;
  }

  lemma LastOrder(cfg: OrderConfig, first: nat, n: nat, upd: nat, v: Streams)
    requires n > 0
    ensures var w := AfterRows(ORDER_LINE, n - 1, v);
            var o := OrderRow(cfg, first + n - 1, upd, w);
            Rows(cfg, ORDER_LINE, first, n, upd, v) ==
            Rows(cfg, ORDER_LINE, first, n - 1, upd, v) + [Whole(OrderMade(o, Lines(cfg, o.okey, w, LineCount(w))))]
  {
    hide OrderRow, Lines, LineCount, AfterRows;
  }

  lemma NoOrders(cfg: OrderConfig, first: nat, upd: nat, v: Streams)
    ensures OrderKeys(Rows(cfg, ORDER_LINE, first, 0, upd, v)) == {}
  {}

  /** Whatever is drawn, rows first .. first + n - 1 carry the keys of those indices. */
  lemma {:induction false} RowKeys(cfg: OrderConfig, first: nat, n: nat, upd: nat, v: Streams)
    requires first >= 1
    ensures OrderKeys(Rows(cfg, ORDER_LINE, first, n, upd, v)) ==
            Refresh.KeyRange(first, first + n - 1, Generation(upd))
  {
    hide OrderRow, Lines, LineCount, AfterRows, Rows, OrderKeys, Generation;
    if n == 0 {
      NoOrders(cfg, first, upd, v);
    } else {
      RowKeys(cfg, first, n - 1, upd, v);
      LastOrder(cfg, first, n, upd, v);
      var w := AfterRows(ORDER_LINE, n - 1, v);
      var o := OrderRow(cfg, first + n - 1, upd, w);
      OneMoreOrder(Rows(cfg, ORDER_LINE, first, n - 1, upd, v), o, Lines(cfg, o.okey, w, LineCount(w)));
      Parallel.OrderKey(cfg, first + n - 1, upd, w);
    }
  }

  /** Row i of a file carries the key of its own index. */
  lemma {:induction false} RowKey(cfg: OrderConfig, first: nat, n: nat, upd: nat, v: Streams, i: nat)
    requires i < n
    ensures var out := Rows(cfg, ORDER_LINE, first, n, upd, v)[i];
            out.Whole? && out.row.OrderMade? &&
            out.row.o.okey == Keys.MkSparse(first + i, if upd == 0 then 0 else 1 + upd / 1000)
  {
    hide OrderRow, Lines, LineCount, AfterRows, Rows;
    LastOrder(cfg, first, n, upd, v);
    if i == n - 1 {
      Parallel.OrderKey(cfg, first + i, upd, AfterRows(ORDER_LINE, i, v));
    } else {
      RowKey(cfg, first, n - 1, upd, v, i);
    }
  }

  /**
   * Order by order: set u goes on in the population where the sets before it stopped, deletes its orders oldest first,
   * and inserts, for each, one whose key is 8 higher, in the gap the population's keys leave. This holds of sets 1 to
   * 999.
   */
  lemma SetsReplace(cfg: OrderConfig, u: nat, before: nat, v: Streams, w: Streams, i: nat)
    requires 1 <= u <= 999 && i < Refresh.UpdateRows(cfg)
    ensures |Updates.InsertSet(cfg, u, before, w)| == |Updates.DeleteSet(cfg, u)| == Refresh.UpdateRows(cfg)
    ensures 0 <= (u - 1) * Refresh.UpdateRows(cfg) + i < |Serial(cfg, ORDER_LINE, v)|
    ensures var inserted := Updates.InsertSet(cfg, u, before, w)[i];
            var kept := Serial(cfg, ORDER_LINE, v)[(u - 1) * Refresh.UpdateRows(cfg) + i];
            var deleted := Updates.DeleteSet(cfg, u)[i];
            inserted.Whole? && inserted.row.OrderMade? && kept.Whole? && kept.row.OrderMade? &&
            deleted == kept.row.o.okey && inserted.row.o.okey == deleted + 8
  {
    hide Rows, Refresh.UpdateRows, Segments.DeleteKeys, AfterRows, Keys.SparseMacro, Settings.Total;
    var rc, a := Refresh.UpdateRows(cfg), Updates.RowsOfSets(cfg, u - 1);
    PlaceInPopulation(cfg, u, i);
    TotalOfPair(cfg);
    RowKey(cfg, a + 1, rc, u % 10000, AfterRows(ORDER_LINE, Updates.RowsOfSets(cfg, before), w), i);
    RowKey(cfg, 1, cfg.Total(ORDER_LINE), 0, v, a + i);
    Segments.DeleteKeyAt(a + 1, rc, u, i);
    Keys.MacroIsMkSparse(a + 1 + i, 0);
  }

  lemma PlaceInPopulation(cfg: OrderConfig, u: nat, i: nat)
    requires 1 <= u <= 999 && i < Refresh.UpdateRows(cfg)
    ensures cfg.Total(ORDER) >= 0 && 0 <= Updates.RowsOfSets(cfg, u - 1) + i < cfg.Total(ORDER)
  {
    Refresh.UpdatesFit(cfg, u);
    hide Refresh.UpdateRows;
    var rc := Refresh.UpdateRows(cfg);
    assert (u - 1) * rc + rc == u * rc;
  }

  /** Row makers are told set numbers modulo 10000, so set 10000 gets the keys of the population's generation again. */
  lemma InsertedKeys(cfg: OrderConfig, u: nat, before: nat, w: Streams, i: nat)
    requires u >= 1 && i < Refresh.UpdateRows(cfg)
    ensures |Updates.InsertSet(cfg, u, before, w)| == Refresh.UpdateRows(cfg) && (u - 1) * Refresh.UpdateRows(cfg) >= 0
    ensures var inserted := Updates.InsertSet(cfg, u, before, w)[i];
            inserted.Whole? && inserted.row.OrderMade? &&
            inserted.row.o.okey ==
            Keys.MkSparse((u - 1) * Refresh.UpdateRows(cfg) + 1 + i, if u % 10000 == 0 then 0 else 1 + u % 10000 / 1000)
  {
    hide Rows, Refresh.UpdateRows, AfterRows, Keys.MkSparse;
    var rc, a := Refresh.UpdateRows(cfg), Updates.RowsOfSets(cfg, u - 1);
    RowKey(cfg, a + 1, rc, u % 10000, AfterRows(ORDER_LINE, Updates.RowsOfSets(cfg, before), w), i);
  }

  /** Insert and delete files hold what the refresh runs call for; row makers are told set numbers modulo 10000. */
  lemma InsertKeys(cfg: OrderConfig, u: nat, before: nat, w: Streams)
    requires 1 <= u < 10000
    ensures OrderKeys(Updates.InsertSet(cfg, u, before, w)) == Refresh.Inserted(u, Refresh.UpdateRows(cfg))
  {
    hide Rows, OrderKeys, Refresh.UpdateRows, Refresh.KeyRange, AfterRow, AfterRows, Generation;
    var rc, a := Refresh.UpdateRows(cfg), Updates.RowsOfSets(cfg, u - 1);
    var a', b := Refresh.Bounds(u, rc);
    hide Refresh.Inserted;
    RowKeys(cfg, a + 1, rc, u % 10000, AfterRows(ORDER_LINE, Updates.RowsOfSets(cfg, before), w));
  }

  lemma DeletedKeys(cfg: OrderConfig, u: nat)
    requires 1 <= u
    ensures KeysIn(Updates.DeleteSet(cfg, u)) == Refresh.Deleted(u, Refresh.UpdateRows(cfg))
  {
    hide Refresh.UpdateRows, Refresh.KeyRange, Segments.DeleteKeys;
    var rc, a := Refresh.UpdateRows(cfg), Updates.RowsOfSets(cfg, u - 1);
    var a', b := Refresh.Bounds(u, rc);
    hide Refresh.Deleted;
    Segments.DeleteKeysAreDeleted(a + 1, rc, u);
  }

  /** The keys of the generated population after update sets 1..k, as generated, have been applied to it. */
  ghost function Applied(cfg: OrderConfig, k: nat, v: Streams, w: Streams): set<int>
  {
    if k == 0 then OrderKeys(Serial(cfg, ORDER_LINE, v))
    else
      Applied(cfg, k - 1, v, w) + OrderKeys(Updates.InsertSet(cfg, k, k - 1, w)) - KeysIn(Updates.DeleteSet(cfg, k))
  }

  lemma {:induction false} AppliedIsAfter(cfg: OrderConfig, k: nat, v: Streams, w: Streams)
    requires k < 10000
    ensures cfg.Total(ORDER) >= 0
    ensures Applied(cfg, k, v, w) == Refresh.After(k, cfg.Total(ORDER), Refresh.UpdateRows(cfg))
  {
    cfg.TotalPositive(ORDER);
    if k == 0 {
      PopulationKeys(cfg, v);
    } else {
      hide Refresh.UpdateRows, Refresh.KeyRange, Refresh.Inserted, Refresh.Deleted, OrderKeys, KeysIn, Settings.Total;
      hide Updates.InsertSet, Updates.DeleteSet, Rows;
      AppliedIsAfter(cfg, k - 1, v, w);
      InsertKeys(cfg, k, k - 1, w);
      DeletedKeys(cfg, k);
    }
  }

  lemma PopulationKeys(cfg: OrderConfig, v: Streams)
    ensures cfg.Total(ORDER) >= 0
    ensures OrderKeys(Serial(cfg, ORDER_LINE, v)) == Refresh.KeyRange(1, cfg.Total(ORDER), 0)
  {
    hide Rows, OrderKeys, Refresh.KeyRange;
    cfg.TotalPositive(ORDER);
    RowKeys(cfg, 1, cfg.Total(ORDER), 0, v);
    TotalOfPair(cfg);
    hide Settings.Total;
  }

  lemma TotalOfPair(cfg: OrderConfig)
    ensures cfg.Total(ORDER_LINE) == cfg.Total(ORDER)
  {}

  /** The files of set u fit the data they are applied to: all their orders are new, all their deletes find an order. */
  ghost predicate Fits(cfg: OrderConfig, u: nat, v: Streams, w: Streams)
    requires u >= 1
  {
    OrderKeys(Updates.InsertSet(cfg, u, u - 1, w)) !! Applied(cfg, u - 1, v, w) &&
    KeysIn(Updates.DeleteSet(cfg, u)) <= Applied(cfg, u - 1, v, w)
  }

  /** Whatever is drawn for the population and for the updates, the first 999 pairs of files fit one after the other. */
  lemma FilesFit(cfg: OrderConfig, u: nat, v: Streams, w: Streams)
    requires 1 <= u <= 999
    ensures Fits(cfg, u, v, w)
  {
    hide Refresh.UpdateRows, Refresh.KeyRange, Refresh.Inserted, Refresh.Deleted, Refresh.After, Settings.Total;
    hide Updates.InsertSet, Updates.DeleteSet, OrderKeys, KeysIn, Applied, Rows;
    AppliedIsAfter(cfg, u - 1, v, w);
    InsertKeys(cfg, u, u - 1, w);
    DeletedKeys(cfg, u);
    SetFits(cfg, u);
  }

  lemma SetFits(cfg: OrderConfig, u: nat)
    requires 1 <= u <= 999
    ensures var n, rc := cfg.Total(ORDER), Refresh.UpdateRows(cfg);
            n >= 0 && Refresh.Inserted(u, rc) !! Refresh.After(u - 1, n, rc) &&
            Refresh.Deleted(u, rc) <= Refresh.After(u - 1, n, rc)
  {
    var n, rc := cfg.Total(ORDER), Refresh.UpdateRows(cfg);
    cfg.TotalPositive(ORDER);
    assert n == cfg.orderBase * cfg.scale;
    Refresh.UpdatesFit(cfg, u);
    hide Refresh.UpdateRows, Refresh.KeyRange, Refresh.Inserted, Refresh.Deleted, Refresh.After, Refresh.Ever;
    hide Settings.Total;
    Refresh.CleanSet(u, n, rc);
    AfterWithinEver(u - 1, n, rc);
  }

  /** And the number of orders never changes. */
  lemma OrdersKept(cfg: OrderConfig, u: nat, v: Streams, w: Streams)
    requires u <= 999
    ensures cfg.Total(ORDER) >= 0 && |Applied(cfg, u, v, w)| == cfg.Total(ORDER)
  {
    var n, rc := cfg.Total(ORDER), Refresh.UpdateRows(cfg);
    cfg.TotalPositive(ORDER);
    assert n == cfg.orderBase * cfg.scale;
    Refresh.UpdatesFit(cfg, u);
    hide Refresh.UpdateRows, Refresh.After, Applied, Settings.Total;
    AppliedIsAfter(cfg, u, v, w);
    Refresh.OrdersConserved(u, n, rc);
  }

  lemma {:induction false} AfterWithinEver(k: nat, n: nat, rc: nat)
    ensures Refresh.After(k, n, rc) <= Refresh.Ever(k, n, rc)
  {
    hide Refresh.KeyRange, Refresh.Inserted, Refresh.Deleted;
    if k > 0 { AfterWithinEver(k - 1, n, rc); }
  }
}
