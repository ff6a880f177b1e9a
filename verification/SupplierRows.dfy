/** The suppliers in the generated partsupp rows (build.c, driver.c). */
module SupplierRows {
  import opened Tables
  import opened Build
  import opened Runs
  import Keys
  import Suppliers

  /** How many of the rows name supplier k. */
  function Named(ps: seq<PartSupp>, k: int): nat
  {
    if ps == [] then 0
    else Named(ps[..|ps| - 1], k) + (if ps[|ps| - 1].suppkey == k then 1 else 0)
  }

  /** How many partsupp rows of a file of parts name supplier k. */
  function NamedIn(file: seq<Printed>, k: int): nat
  {
    if file == [] then 0
    else
      var last := file[|file| - 1];
      NamedIn(file[..|file| - 1], k) + (if last.Whole? && last.row.PartMade? then Named(last.row.ps, k) else 0)
  }

  lemma {:induction false} RowsAt(cfg: Config, index: int, v: Streams, n: nat, s: nat)
    requires s < n
    ensures |PartSuppRows(cfg, index, v, n)| == n && cfg.Total(SUPP) >= 1
    ensures PartSuppRows(cfg, index, v, n)[s].suppkey == Keys.Bridge(cfg.Total(SUPP), index, s)
  {
    cfg.TotalPositive(SUPP);
    if s < n - 1 {
      RowsAt(cfg, index, v, n - 1, s);
    } else if n > 1 {
      RowsAt(cfg, index, v, n - 1, 0);
    }
  }

  /** The rows of a part name the suppliers that the formula counts. */
  lemma NamedByPart(cfg: Config, index: int, v: Streams, k: int)
    ensures cfg.Total(SUPP) >= 1
    ensures var total := cfg.Total(SUPP);
            Named(PartSuppRows(cfg, index, v, 4), k) ==
            (if Keys.Bridge(total, index, 0) == k then 1 else 0) +
            (if Keys.Bridge(total, index, 1) == k then 1 else 0) +
            (if Keys.Bridge(total, index, 2) == k then 1 else 0) +
            (if Keys.Bridge(total, index, 3) == k then 1 else 0)
  {
    cfg.TotalPositive(SUPP);
    hide Keys.Bridge, Settings.Total, PartSuppRow;
    NamedNext(cfg, index, v, k, 1);
    NamedNext(cfg, index, v, k, 2);
    NamedNext(cfg, index, v, k, 3);
    NamedNext(cfg, index, v, k, 4);
    assert PartSuppRows(cfg, index, v, 0) == [];
  }

  lemma NamedNext(cfg: Config, index: int, v: Streams, k: int, n: nat)
    requires n > 0
    ensures cfg.Total(SUPP) >= 1
    ensures Named(PartSuppRows(cfg, index, v, n), k) ==
            Named(PartSuppRows(cfg, index, v, n - 1), k) +
            (if Keys.Bridge(cfg.Total(SUPP), index, n - 1) == k then 1 else 0)
  {
    cfg.TotalPositive(SUPP);
    var ps := PartSuppRows(cfg, index, v, n);
    assert ps[..|ps| - 1] == PartSuppRows(cfg, index, v, n - 1);
  }

  lemma NamedInOneMore(file: seq<Printed>, p: Part, ps: seq<PartSupp>, k: int)
    ensures NamedIn(file + [Whole(PartMade(p, ps))], k) == NamedIn(file, k) + Named(ps, k)
  {
    hide Named;
    assert (file + [Whole(PartMade(p, ps))])[..|file|] == file;
  }

  lemma LastPart(cfg: Config, n: nat, v: Streams)
    requires n > 0
    ensures var w := AfterRows(PART_PSUPP, n - 1, v);
            Rows(cfg, PART_PSUPP, 1, n, 0, v) ==
            Rows(cfg, PART_PSUPP, 1, n - 1, 0, v) + [Whole(PartMade(PartRow(cfg, n, w), PartSuppRows(cfg, n, w, 4)))]
  {
    hide PartRow, PartSuppRows, AfterRows;
  }

  lemma NoParts(cfg: Config, v: Streams, k: int)
    ensures NamedIn(Rows(cfg, PART_PSUPP, 1, 0, 0, v), k) == 0
  {}

  lemma OccursNext(total: int, n: nat, k: int)
    requires total > 0
    ensures Suppliers.Occurs(total, 0, k) == 0
    ensures n > 0 ==>
              Suppliers.Occurs(total, n, k) == Suppliers.Occurs(total, n - 1, k) +
              (if Keys.Bridge(total, n, 0) == k then 1 else 0) + (if Keys.Bridge(total, n, 1) == k then 1 else 0) +
              (if Keys.Bridge(total, n, 2) == k then 1 else 0) + (if Keys.Bridge(total, n, 3) == k then 1 else 0)
  {
    hide Keys.Bridge;
  }

  lemma {:induction false} NamedByRun(cfg: Config, n: nat, v: Streams, k: int)
    ensures cfg.Total(SUPP) >= 1
    ensures NamedIn(Rows(cfg, PART_PSUPP, 1, n, 0, v), k) == Suppliers.Occurs(cfg.Total(SUPP), n, k)
  {
    hide Keys.Bridge, Settings.Total, PartSuppRows, PartRow, AfterRows, Named, NamedIn, Rows, Suppliers.Occurs;
    cfg.TotalPositive(SUPP);
    OccursNext(cfg.Total(SUPP), n, k);
    if n == 0 {
      NoParts(cfg, v, k);
    } else {
      NamedByRun(cfg, n - 1, v, k);
      LastPart(cfg, n, v);
      var w := AfterRows(PART_PSUPP, n - 1, v);
      NamedInOneMore(Rows(cfg, PART_PSUPP, 1, n - 1, 0, v), PartRow(cfg, n, w), PartSuppRows(cfg, n, w, 4), k);
      NamedByPart(cfg, n, w, k);
    }
  }

  /** Whatever is drawn, every supplier is named by exactly 80 generated partsupp rows, at every scale. */
  lemma EverySupplierIn80Rows(cfg: Config, v: Streams, k: int)
    requires cfg.Total(PART) == 20 * cfg.Total(SUPP) && 1 <= k <= cfg.Total(SUPP)
    ensures NamedIn(Serial(cfg, PART_PSUPP, v), k) == 80
  {
    hide Rows, NamedIn;
    cfg.TotalPositive(PART_PSUPP);
    assert cfg.Total(PART_PSUPP) == cfg.Total(PART);
    NamedByRun(cfg, cfg.Total(PART), v, k);
    Suppliers.EverySupplierEquallyOften(cfg.Total(SUPP), k, 20);
  }

  // ----- the suppliers of one part -----

  /** The partsupp rows of a part name four different suppliers that exist. */
  ghost predicate FourNamed(ps: seq<PartSupp>, total: int)
  {
    |ps| == 4 && (forall s :: 0 <= s < 4 ==> 1 <= ps[s].suppkey <= total) &&
    forall s, t :: 0 <= s < t < 4 ==> ps[s].suppkey != ps[t].suppkey
  }

  lemma {:induction false} PartsOfRun(cfg: Config, n: nat, v: Streams, i: nat)
    requires i < n
    ensures cfg.Total(SUPP) >= 1
    ensures var out := Rows(cfg, PART_PSUPP, 1, n, 0, v);
            out[i].Whole? && out[i].row.PartMade? &&
            (FourNamed(out[i].row.ps, cfg.Total(SUPP)) <==> Suppliers.FourSuppliers(cfg.Total(SUPP), i + 1))
  {
    hide Keys.Bridge, Settings.Total, PartSuppRow, PartRow, AfterRows, PartSuppRows, FourNamed, Suppliers.FourSuppliers;
    if i < n - 1 {
      PartsOfRun(cfg, n - 1, v, i);
    } else {
      FourInRow(cfg, n, AfterRows(PART_PSUPP, n - 1, v));
    }
  }

  lemma FourInRow(cfg: Config, index: int, w: Streams)
    ensures cfg.Total(SUPP) >= 1
    ensures FourNamed(PartSuppRows(cfg, index, w, 4), cfg.Total(SUPP)) <==>
            Suppliers.FourSuppliers(cfg.Total(SUPP), index)
  {
    hide Keys.Bridge, Settings.Total, PartSuppRow, PartSuppRows;
    RowsAt(cfg, index, w, 4, 0);
    RowsAt(cfg, index, w, 4, 1);
    RowsAt(cfg, index, w, 4, 2);
    RowsAt(cfg, index, w, 4, 3);
  }

  /** Every generated part has four different suppliers exactly when there are enough suppliers. */
  lemma PartsHaveFourSuppliers(cfg: Config, v: Streams)
    requires cfg.Total(PART) == 20 * cfg.Total(SUPP)
    ensures |Serial(cfg, PART_PSUPP, v)| == cfg.Total(PART)
    ensures (forall i :: 0 <= i < cfg.Total(PART) ==>
              Serial(cfg, PART_PSUPP, v)[i].Whole? && Serial(cfg, PART_PSUPP, v)[i].row.PartMade? &&
              FourNamed(Serial(cfg, PART_PSUPP, v)[i].row.ps, cfg.Total(SUPP))) <==>
            Suppliers.Enough(cfg.Total(SUPP))
  {
    var total := cfg.Total(SUPP);
    cfg.TotalPositive(SUPP);
    cfg.TotalPositive(PART_PSUPP);
    assert cfg.Total(PART_PSUPP) == cfg.Total(PART);
    hide Rows, FourNamed, Suppliers.FourSuppliers, Suppliers.Enough, Settings.Total;
    var out := Rows(cfg, PART_PSUPP, 1, 20 * total, 0, v);
    forall i | 0 <= i < 20 * total
      ensures out[i].Whole? && out[i].row.PartMade?
      ensures FourNamed(out[i].row.ps, total) <==> Suppliers.FourSuppliers(total, i + 1)
    {
      PartsOfRun(cfg, 20 * total, v, i);
    }
    Suppliers.FourSuppliersExactly(total);
    Shifted(total, out);
  }

  lemma Shifted(total: int, out: seq<Printed>)
    requires total >= 1 && |out| == 20 * total
    requires forall i :: 0 <= i < 20 * total ==>
               out[i].Whole? && out[i].row.PartMade? &&
               (FourNamed(out[i].row.ps, total) <==> Suppliers.FourSuppliers(total, i + 1))
    ensures (forall i :: 0 <= i < 20 * total ==> FourNamed(out[i].row.ps, total)) <==>
            (forall p :: 1 <= p <= 20 * total ==> Suppliers.FourSuppliers(total, p))
  {
    hide FourNamed, Suppliers.FourSuppliers;
    if forall i :: 0 <= i < 20 * total ==> FourNamed(out[i].row.ps, total) {
      forall p | 1 <= p <= 20 * total ensures Suppliers.FourSuppliers(total, p) {
        assert FourNamed(out[p - 1].row.ps, total);
      }
    }
  }
}
