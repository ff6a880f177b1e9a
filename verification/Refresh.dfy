/** Insert and delete runs over sparse order keys (driver.c, build.c, print.c). */
module Refresh {
  import opened Keys
  import opened Build
  import ModArith
  import Tables

  /** The order keys of the indices from a to b, generation g. */
  ghost function KeyRange(a: nat, b: nat, g: nat): set<int>
    decreases b
  {
    if b < a || b == 0 then {} else KeyRange(a, b - 1, g) + {MkSparse(b, g)}
  }

  lemma {:induction false} KeyRangeHas(a: nat, b: nat, g: nat, i: nat)
    requires 1 <= a <= i <= b
    ensures MkSparse(i, g) in KeyRange(a, b, g)
    decreases b
  {
    if i < b { KeyRangeHas(a, b - 1, g, i); }
  }

  lemma {:induction false} KeyRangeIndex(a: nat, b: nat, g: nat, x: int) returns (i: nat)
    requires 1 <= a && x in KeyRange(a, b, g)
    ensures a <= i <= b && x == MkSparse(i, g)
    decreases b
  {
    if x == MkSparse(b, g) { i := b; } else { i := KeyRangeIndex(a, b - 1, g, x); }
  }

  lemma {:induction false} KeyRangeSize(a: nat, b: nat, g: nat)
    requires 1 <= a <= b + 1 && g <= 3
    ensures |KeyRange(a, b, g)| == b + 1 - a
    decreases b
  {
    if a <= b {
      KeyRangeSize(a, b - 1, g);
      if MkSparse(b, g) in KeyRange(a, b - 1, g) {
        var i := KeyRangeIndex(a, b - 1, g, MkSparse(b, g));
        SparseInjective(i, g, b, g);
      }
    }
  }

  lemma KeyRangesDisjoint(a: nat, b: nat, g: nat, c: nat, d: nat, h: nat)
    requires 1 <= a && 1 <= c && g <= 3 && h <= 3 && (g != h || b < c || d < a)
    ensures KeyRange(a, b, g) !! KeyRange(c, d, h)
  {
    forall x | x in KeyRange(a, b, g) ensures x !in KeyRange(c, d, h) {
      if x in KeyRange(c, d, h) {
        var i := KeyRangeIndex(a, b, g, x);
        var j := KeyRangeIndex(c, d, h, x);
        SparseInjective(i, g, j, h);
      }
    }
  }

  lemma {:induction false} KeyRangeSplit(a: nat, m: nat, b: nat, g: nat)
    requires 1 <= a <= m + 1 && m <= b
    ensures KeyRange(a, b, g) == KeyRange(a, m, g) + KeyRange(m + 1, b, g)
    decreases b
  {
    if m < b { KeyRangeSplit(a, m, b - 1, g); }
  }

  // ----- update sets -----

  /** Keys inserted by update set u when a set has rc rows. */
  ghost function Inserted(u: nat, rc: nat): set<int>
    requires u >= 1
  {
    KeyRange((u - 1) * rc + 1, u * rc, Generation(u))
  }

  /** Keys deleted by update set u: the macro over the same indices, one generation back. */
  ghost function Deleted(u: nat, rc: nat): set<int>
    requires u >= 1
  {
    KeyRange((u - 1) * rc + 1, u * rc, u / 1000 % 4)
  }

  /** The order keys after update sets 1..k on a population of n orders. */
  ghost function After(k: nat, n: nat, rc: nat): set<int>
  {
    if k == 0 then KeyRange(1, n, 0) else After(k - 1, n, rc) + Inserted(k, rc) - Deleted(k, rc)
  }

  /** Every key there has ever been. */
  ghost function Ever(k: nat, n: nat, rc: nat): set<int>
  {
    if k == 0 then KeyRange(1, n, 0) else Ever(k - 1, n, rc) + Inserted(k, rc)
  }

  /** Set u covers the indices above a up to b. */
  lemma Bounds(u: nat, rc: nat) returns (a: nat, b: nat)
    requires u >= 1
    ensures a == (u - 1) * rc && b == u * rc && b == a + rc
    ensures Inserted(u, rc) == KeyRange(a + 1, b, Generation(u)) && Deleted(u, rc) == KeyRange(a + 1, b, u / 1000 % 4)
  {
    a, b := (u - 1) * rc, u * rc;
    assert (u - 1) * rc + rc == u * rc;
  }

  lemma {:induction false} AfterIs(k: nat, n: nat, rc: nat)
    requires k <= 999 && k * rc <= n
    ensures After(k, n, rc) == KeyRange(k * rc + 1, n, 0) + KeyRange(1, k * rc, 1)
    ensures Ever(k, n, rc) == KeyRange(1, n, 0) + KeyRange(1, k * rc, 1)
  {
    hide KeyRange;
    if k > 0 {
      var a, b := Bounds(k, rc);
      AfterIs(k - 1, n, rc);
      KeyRangeSplit(a + 1, b, n, 0);
      KeyRangeSplit(1, a, b, 1);
      KeyRangesDisjoint(a + 1, b, 0, b + 1, n, 0);
      KeyRangesDisjoint(a + 1, b, 0, 1, b, 1);
    } else {
      assert k * rc == 0;
      EmptyRange(1);
    }
  }

  lemma EmptyRange(g: nat)
    ensures KeyRange(1, 0, g) == {}
  {}

  /** What refresh runs promise about set u: its inserts are new for all time, its deletes find what they look for. */
  ghost predicate Clean(u: nat, n: nat, rc: nat)
    requires u >= 1
  {
    Inserted(u, rc) !! Ever(u - 1, n, rc) && Deleted(u, rc) <= After(u - 1, n, rc)
  }

  lemma CleanSet(u: nat, n: nat, rc: nat)
    requires 1 <= u <= 999 && u * rc <= n
    ensures Clean(u, n, rc) && |Inserted(u, rc)| == rc && |Deleted(u, rc)| == rc
  {
    hide KeyRange, Inserted, Deleted;
    var a, b := Bounds(u, rc);
    AfterIs(u - 1, n, rc);
    KeyRangesDisjoint(a + 1, b, 1, 1, n, 0);
    KeyRangesDisjoint(a + 1, b, 1, 1, a, 1);
    KeyRangeSplit(a + 1, b, n, 0);
    KeyRangeSize(a + 1, b, 1);
    KeyRangeSize(a + 1, b, 0);
  }

  /** Update sets conserve the number of orders. */
  lemma OrdersConserved(k: nat, n: nat, rc: nat)
    requires k <= 999 && k * rc <= n
    ensures |After(k, n, rc)| == n
  {
    hide KeyRange, After;
    AfterIs(k, n, rc);
    var b := k * rc;
    KeyRangesDisjoint(b + 1, n, 0, 1, b, 1);
    KeyRangeSize(b + 1, n, 0);
    KeyRangeSize(1, b, 1);
  }

  /** No key is deleted by two sets. */
  lemma DeletedOnce(u: nat, w: nat, rc: nat)
    requires 1 <= u < w <= 999
    ensures Deleted(u, rc) !! Deleted(w, rc)
  {
    hide KeyRange, Deleted;
    var a, b := Bounds(u, rc);
    var c, d := Bounds(w, rc);
    ModArith.MulMono(u, w - 1, rc);
    KeyRangesDisjoint(a + 1, b, 0, c + 1, d, 0);
  }

  /** Set 1000 deletes from the generation that sets 1 to 999 inserted, at indices where none was inserted. */
  lemma ThousandthSetMisses(n: nat, rc: nat)
    requires rc > 0 && 999 * rc <= n
    ensures Deleted(1000, rc) !! After(999, n, rc) && Deleted(1000, rc) != {}
  {
    hide KeyRange, After, Deleted, Inserted;
    var a, b := Bounds(1000, rc);
    AfterIs(999, n, rc);
    KeyRangesDisjoint(a + 1, b, 1, a + 1, n, 0);
    KeyRangesDisjoint(a + 1, b, 1, 1, a, 1);
    KeyRangeHas(a + 1, b, 1, b);
  }

  /** Rows in an update set. */
  function UpdateRows(cfg: Config): nat
  {
    cfg.TotalPositive(Tables.ORDER);
    cfg.orderBase / 10000 * cfg.scale * 10
  }

  /** A set is a thousandth of the population, but for what cutting the base to whole ten thousands takes off. */
  lemma UpdateShare(cfg: Config)
    ensures cfg.orderBase % 10000 == 0 <==> 1000 * UpdateRows(cfg) == cfg.Total(Tables.ORDER)
    ensures cfg.Total(Tables.ORDER) - 10000 * cfg.scale < 1000 * UpdateRows(cfg) <= cfg.Total(Tables.ORDER)
  {
    var q, r, s := cfg.orderBase / 10000, cfg.orderBase % 10000, cfg.scale;
    assert (10000 * q + r) * s == 10000 * (q * s) + r * s;
    assert q * s * 10 == 10 * (q * s);
    ModArith.MulMono(0, r, s);
    ModArith.MulMono(r, 9999, s);
    if r > 0 { ModArith.MulMono(1, r, s); }
  }

  /** 999 sets never reach past the population, whatever the scale. */
  lemma UpdatesFit(cfg: Config, k: nat)
    requires k <= 999
    ensures 0 <= k * UpdateRows(cfg) <= cfg.orderBase * cfg.scale
  {
    var q, s := cfg.orderBase / 10000, cfg.scale;
    assert q * 10000 <= cfg.orderBase;
    assert 0 <= q * s && (q * 10000) * s <= cfg.orderBase * s by {
      assert 0 <= (cfg.orderBase - q * 10000) * s;
    }
    assert q * 10000 * s == 10000 * (q * s);
    assert UpdateRows(cfg) == 10 * (q * s);
    assert 0 <= k * (10 * (q * s)) <= 9990 * (q * s) by { assert 0 <= (999 - k) * (10 * (q * s)); }
  }

  /**
   * A sequence of refresh runs is clean, conserving the number of orders throughout, exactly up to its 999th set;
   * only a scale too small to have any update rows is clean beyond.
   */
  lemma RefreshRuns(cfg: Config, k: nat)
    ensures var n, rc := cfg.orderBase * cfg.scale, UpdateRows(cfg);
            n >= 0 && (k <= 999 ==> forall u :: 1 <= u <= k ==> |After(u, n, rc)| == n) &&
            ((forall u :: 1 <= u <= k ==> Clean(u, n, rc)) <==> k <= 999 || rc == 0)
  {
    var n, rc := cfg.orderBase * cfg.scale, UpdateRows(cfg);
    UpdatesFit(cfg, 999);
    if k <= 999 {
      forall u | 1 <= u <= k ensures Clean(u, n, rc) && |After(u, n, rc)| == n {
        UpdatesFit(cfg, u);
        CleanSet(u, n, rc);
        OrdersConserved(u, n, rc);
      }
    } else if rc == 0 {
      forall u | 1 <= u <= k ensures Clean(u, n, rc) { NothingInserted(u, n); }
    } else {
      ThousandthSetMisses(n, rc);
      assert !Clean(1000, n, rc);
    }
  }

  lemma NothingInserted(u: nat, n: nat)
    requires u >= 1
    ensures Inserted(u, 0) == {} && Deleted(u, 0) == {}
  {
    assert (u - 1) * 0 == 0 && u * 0 == 0;
  }
}
