/** The formula that assigns four suppliers to every part (build.c; section 4.2.3 of the TPC-H specification). */
module Suppliers {
  import opened ModArith
  import opened Keys
  import Rnd
  import Tables
  import Build

  /** The distance between consecutive suppliers of a part. */
  function Stride(total: int, p: int): int
    requires total > 0
  {
    total / 4 + (p - 1) / total
  }

  lemma BridgeInRange(total: int, p: int, s: int)
    requires total > 0
    ensures 1 <= Bridge(total, p, s) <= total
  {}

  lemma SameResidue(a: int, b: int, m: int)
    requires m > 0
    ensures a % m == b % m <==> (a - b) % m == 0
  {
    var q, r := (a - b) / m, (a - b) % m;
    assert a == b + r + q * m;
    ModAddMultiple(b + r, q, m);
    if r == 0 {
    } else if (b + r) % m == b % m {
      var k := (b + r) / m - b / m;
      assert r == k * m by {
        assert b + r == (b + r) / m * m + (b + r) % m && b == b / m * m + b % m;
        assert k * m == (b + r) / m * m - b / m * m;
      }
      if k >= 1 { MulMono(1, k, m); } else { MulMono(k, 0, m); }
    }
  }

  /** Two suppliers of a part coincide exactly when their distance is a multiple of the number of suppliers. */
  lemma BridgeCollides(total: int, p: int, s: int, t: int)
    requires total > 0
    ensures Bridge(total, p, s) == Bridge(total, p, t) <==> ((s - t) * Stride(total, p)) % total == 0
  {
    var d := Stride(total, p);
    var x, y := s * d, t * d;
    assert Bridge(total, p, s) == (p + x) % total + 1 && Bridge(total, p, t) == (p + y) % total + 1;
    hide Bridge, Stride;
    SameResidue(p + x, p + y, total);
    assert x - y == (s - t) * d;
  }

  /** A part's suppliers exist and are four. */
  ghost predicate FourSuppliers(total: int, p: int)
    requires total > 0
  {
    (forall s :: 0 <= s < 4 ==> 1 <= Bridge(total, p, s) <= total) &&
    forall s, t :: 0 <= s < t < 4 ==> Bridge(total, p, s) != Bridge(total, p, t)
  }

  /** The numbers of suppliers that are large enough, depending on the divisors 2 and 3. */
  predicate Enough(total: int)
  {
    total >= 229 || (total % 3 != 0 && total >= if total % 2 == 0 then 80 else 29)
  }

  /**
   * With twenty parts to a supplier, every part has four different suppliers exactly when there are at least 229
   * suppliers, or at least 80 or, for an odd number, 29 and the number is no multiple of three (section 4.2.3 of the
   * TPC-H specification starts at 10000).
   */
  lemma FourSuppliersExactly(total: int)
    requires total > 0
    ensures (forall p :: 1 <= p <= 20 * total ==> FourSuppliers(total, p)) <==> Enough(total)
  {
    hide FourSuppliers, Enough;
    if Enough(total) {
      forall p | 1 <= p <= 20 * total ensures FourSuppliers(total, p) { EnoughSuffices(total, p); }
    } else {
      var p := FewCollide(total);
      assert !FourSuppliers(total, p);
    }
  }

  lemma EnoughSuffices(total: int, p: int)
    requires total > 0 && Enough(total) && 1 <= p <= 20 * total
    ensures FourSuppliers(total, p)
  {
    forall s | 0 <= s < 4 ensures 1 <= Bridge(total, p, s) <= total { BridgeInRange(total, p, s); }
    var d := Stride(total, p);
    StrideBounds(total, p);
    hide Bridge, Stride;
    forall s, t | 0 <= s < t < 4 ensures Bridge(total, p, s) != Bridge(total, p, t) {
      BridgeCollides(total, p, t, s);
      NoCollision(total, d, t - s);
    }
  }

  lemma StrideBounds(total: int, p: int)
    requires total > 0 && 1 <= p <= 20 * total
    ensures total / 4 <= Stride(total, p) <= total / 4 + 19
  {
    var q := (p - 1) / total;
    if q >= 20 { MulMono(20, q, total); }
    if q < 0 { MulMono(q, -1, total); }
  }

  /** One, two or three strides do not lead back to the same supplier. */
  lemma NoCollision(total: int, d: int, e: int)
    requires total > 0 && Enough(total) && total / 4 <= d <= total / 4 + 19 && 1 <= e <= 3
    ensures e * d % total != 0
  {
    assert 0 < d < total && (total >= 229 ==> 3 * d < total);
    var x := e * d;
    assert x == if e == 1 then d else if e == 2 then d + d else d + d + d;
    NotTheTotal(total, d);
    Remainder(total, x);
  }

  lemma NotTheTotal(total: int, d: int)
    requires total > 0 && Enough(total) && total / 4 <= d <= total / 4 + 19
    ensures d + d != total && d + d + d != total && d + d + d != total + total
  {}

  /** A number below three times the total and none of its multiples leaves a remainder. */
  lemma Remainder(total: int, x: int)
    requires 0 < x < 3 * total && x != total && x != total + total
    ensures x % total != 0
  {
    var q := if x < total then 0 else if x < total + total then 1 else 2;
    DivModUnique(x, total, q, x - q * total);
  }

  /** A block of parts in which some strides lead back to the first supplier, when there are too few suppliers. */
  lemma FewStrides(total: int) returns (q: int, e: int)
    requires total > 0 && !Enough(total)
    ensures 0 <= q <= 19 && 1 <= e <= 3 && e * (total / 4 + q) == total
  {
    if total % 3 == 0 {
      q, e := total / 3 - total / 4, 3;
    } else if total % 2 == 0 {
      q, e := total / 2 - total / 4, 2;
    } else {
      q, e := total - total / 4, 1;
    }
  }

  lemma BlockStart(total: int, q: int)
    requires total > 0 && 0 <= q <= 19
    ensures 1 <= q * total + 1 <= 20 * total && Stride(total, q * total + 1) == total / 4 + q
  {
    MulMono(0, q, total);
    MulMono(q, 19, total);
    DivModUnique(q * total, total, q, 0);
  }

  /** A part whose suppliers are too few, when there are too few altogether. */
  lemma FewCollide(total: int) returns (p: int)
    requires total > 0 && !Enough(total)
    ensures 1 <= p <= 20 * total && !FourSuppliers(total, p)
  {
    var q, e := FewStrides(total);
    hide Enough, Stride, Bridge;
    BlockStart(total, q);
    p := q * total + 1;
    BridgeCollides(total, p, e, 0);
    DivModUnique(total, total, 1, 0);
    assert Bridge(total, p, 0) == Bridge(total, p, e);
  }

  /** With 40 suppliers, a part in the eleventh block gets the same supplier twice. */
  lemma FewSuppliersCollide()
    ensures Bridge(40, 401, 0) == Bridge(40, 401, 2)
  {}

  // ----- how often a supplier occurs -----

  /** Parts 1..n whose s-th supplier is k. */
  function OccursAs(total: int, s: int, n: nat, k: int): nat
    requires total > 0
  {
    if n == 0 then 0 else OccursAs(total, s, n - 1, k) + (if Bridge(total, n, s) == k then 1 else 0)
  }

  /** Partsupp rows of parts 1..n with supplier k. */
  function Occurs(total: int, n: nat, k: int): nat
    requires total > 0
  {
    OccursAs(total, 0, n, k) + OccursAs(total, 1, n, k) + OccursAs(total, 2, n, k) + OccursAs(total, 3, n, k)
  }

  /** The place within block q at which supplier k is the s-th supplier. */
  function Place(total: int, q: int, s: int, k: int): int
    requires total > 0
  {
    (k - 2 - s * (total / 4 + q)) % total + 1
  }

  /** Within a block the s-th supplier runs through all suppliers: it is k at exactly one place. */
  lemma OncePerBlock(total: int, q: int, s: int, k: int, j: int)
    requires total > 0 && 1 <= k <= total && 1 <= j <= total
    ensures Bridge(total, q * total + j, s) == k <==> j == Place(total, q, s, k)
  {
    var p, c := q * total + j, s * (total / 4 + q);
    DivModUnique(p - 1, total, q, j - 1);
    assert Bridge(total, p, s) == (p + c) % total + 1;
    ModAddMultiple(j + c, q, total);
    assert p + c == (j + c) + q * total;
    DivModUnique(k - 1, total, 0, k - 1);
    SameResidue(j + c, k - 1, total);
    var x := Place(total, q, s, k);
    SameResidue(j - 1, k - 2 - c, total);
    DivModUnique(j - 1, total, 0, j - 1);
    assert (j + c) - (k - 1) == (j - 1) - (k - 2 - c);
  }

  lemma {:induction false} BlockPrefix(total: int, q: nat, s: int, k: int, r: nat)
    requires total > 0 && 1 <= k <= total && r <= total
    ensures q * total >= 0
    ensures OccursAs(total, s, q * total + r, k) ==
            OccursAs(total, s, q * total, k) + (if r >= Place(total, q, s, k) then 1 else 0)
  {
    hide Bridge, Place;
    assert q * total >= 0;
    PlaceInRange(total, q, s, k);
    if r > 0 {
      BlockPrefix(total, q, s, k, r - 1);
      OncePerBlock(total, q, s, k, r);
    }
  }

  lemma PlaceInRange(total: int, q: int, s: int, k: int)
    requires total > 0
    ensures 1 <= Place(total, q, s, k) <= total
  {}

  lemma {:induction false} OncePerPosition(total: int, q: nat, s: int, k: int)
    requires total > 0 && 1 <= k <= total
    ensures q * total >= 0 && OccursAs(total, s, q * total, k) == q
  {
    if q == 0 {
      assert 0 * total == 0;
    } else {
      OncePerPosition(total, q - 1, s, k);
      BlockPrefix(total, q - 1, s, k, total);
      PlaceInRange(total, q - 1, s, k);
      assert (q - 1) * total + total == q * total;
    }
  }

  /** Over any whole number of blocks every supplier gets four rows to a block; over the twenty blocks of parts, 80. */
  lemma EverySupplierEquallyOften(total: int, k: int, q: nat)
    requires total > 0 && 1 <= k <= total
    ensures q * total >= 0 && Occurs(total, q * total, k) == 4 * q
    ensures Occurs(total, 20 * total, k) == 80
  {
    OncePerPosition(total, q, 0, k);
    OncePerPosition(total, q, 1, k);
    OncePerPosition(total, q, 2, k);
    OncePerPosition(total, q, 3, k);
    OncePerPosition(total, 20, 0, k);
    OncePerPosition(total, 20, 1, k);
    OncePerPosition(total, 20, 2, k);
    OncePerPosition(total, 20, 3, k);
  }

  // ----- generated rows -----

  /** Every generated lineitem names an existing part and one of that part's partsupp rows. */
  lemma LineHasPartSupp(cfg: Build.OrderConfig, okey: int, v: Tables.Streams, k: nat, w: Tables.Streams)
    ensures var l := Build.LineRow(cfg, okey, v, k);
            cfg.Total(Tables.PART) >= 1 && 1 <= l.partkey <= cfg.Total(Tables.PART) &&
            exists n: nat :: n < 4 && Build.PartSuppRow(cfg, l.partkey, w, n).partkey == l.partkey &&
                             Build.PartSuppRow(cfg, l.partkey, w, n).suppkey == l.suppkey
  {
    cfg.TotalPositive(Tables.PART);
    cfg.TotalPositive(Tables.SUPP);
    Rnd.UnifIntRange(1, cfg.Total(Tables.PART), Rnd.Iter(k + 1, v[Tables.L_PKEY_SD]));
    Rnd.UnifIntRange(0, 3, Rnd.Iter(k + 1, v[Tables.L_SKEY_SD]));
    var n := Build.Draw(v, Tables.L_SKEY_SD, k + 1, 0, 3);
    var l := Build.LineRow(cfg, okey, v, k);
    assert Build.PartSuppRow(cfg, l.partkey, w, n).suppkey == l.suppkey;
  }
}
