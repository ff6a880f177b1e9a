/** What the ranges of the draws guarantee about the generated rows (build.c, dss.h). */
module Bounds {
  import opened Rnd
  import opened Tables
  import opened Build
  import Calendar
  import Shuffle

  /** An index into the table of date texts. */
  predicate IsDateIndex(d: int) { 0 <= d < Calendar.TOTDATE }

  /** Every date of every order and lineitem has an entry in the date table, and they follow one another in order. */
  lemma DatesInTable(cfg: OrderConfig, index: nat, upd: nat, v: Streams, k: nat)
    ensures var o := OrderRow(cfg, index, upd, v);
            var l := LineRow(cfg, o.okey, v, k);
            IsDateIndex(o.odate) && IsDateIndex(l.sdate) && IsDateIndex(l.cdate) && IsDateIndex(l.rdate) &&
            o.odate < l.sdate < l.rdate && o.odate + 30 <= l.cdate
  {
    hide Lines, TotalCharge, LineCount, ShippedBefore, NextRand, Settings.Total;
    UnifIntRange(O_ODATE_MIN, O_ODATE_MAX, Iter(1, v[O_ODATE_SD]));
    UnifIntRange(1, 121, Iter(k + 1, v[L_SDTE_SD]));
    UnifIntRange(30, 90, Iter(k + 1, v[L_CDTE_SD]));
    UnifIntRange(1, 30, Iter(k + 1, v[L_RDTE_SD]));
    hide UnifInt;
  }

  /** The whole span is needed: some stream values put a receipt on the last day of the table. */
  lemma LastDayIsReached() returns (d: Live, s: Live, r: Live)
    ensures UnifInt(O_ODATE_MIN, O_ODATE_MAX, d) + UnifInt(1, 121, s) + UnifInt(1, 30, r) ==
            Calendar.STARTDATE + Calendar.TOTDATE - 1
  {
    d := UnifIntOnto(O_ODATE_MIN, O_ODATE_MAX, O_ODATE_MAX);
    s := UnifIntOnto(1, 121, 121);
    r := UnifIntOnto(1, 30, 30);
  }

  /** Flags follow dates: lines received by the current date carry a return flag, those shipped by it are final. */
  lemma FlagsFollowDates(cfg: OrderConfig, okey: int, v: Streams, k: nat)
    ensures var l := LineRow(cfg, okey, v, k);
            (l.rflag.Some? <==> l.rdate <= Calendar.Unjulian(Calendar.CURRENTDATE)) &&
            (l.shipped <==> l.sdate <= Calendar.Unjulian(Calendar.CURRENTDATE))
  {
    var today := Calendar.Unjulian(Calendar.CURRENTDATE);
    Calendar.LastDay();
    Calendar.UnjulianRoundTrip(Calendar.CURRENTDATE);
    assert Calendar.Julian(Calendar.STARTDATE + today) == Calendar.CURRENTDATE;
    hide Calendar.Julian, Calendar.Unjulian, NextRand, Settings.Total;
    UnifIntRange(O_ODATE_MIN, O_ODATE_MAX, Iter(1, v[O_ODATE_SD]));
    UnifIntRange(1, 121, Iter(k + 1, v[L_SDTE_SD]));
    UnifIntRange(1, 30, Iter(k + 1, v[L_RDTE_SD]));
    hide UnifInt;
    Calendar.JulianMonotone(Calendar.STARTDATE + today, ReceiptDate(v, k));
    Calendar.JulianMonotone(Calendar.STARTDATE + today, ShipDate(v, k));
    Calendar.JulianMonotone(ReceiptDate(v, k), Calendar.STARTDATE + today);
    Calendar.JulianMonotone(ShipDate(v, k), Calendar.STARTDATE + today);
  }

  /** Orders belong to customers that exist and are not among the third that never orders. */
  lemma BuyersExist(cfg: OrderConfig, index: nat, upd: nat, v: Streams)
    ensures var o := OrderRow(cfg, index, upd, v);
            1 <= o.custkey <= cfg.Total(CUST) && o.custkey % 3 != 0
  {
    hide Lines, TotalCharge, LineCount, ShippedBefore, NextRand;
    cfg.TotalPositive(CUST);
    UnifIntRange(1, cfg.Total(CUST), Iter(1, v[O_CKEY_SD]));
    hide UnifInt, Settings.Total;
  }

  /** The text woven into a supplier's comment, the word, the noise and the verdict, ends within the comment. */
  lemma PressFits(cfg: Config, index: int, v: Streams)
    ensures var s := SupplierRow(cfg, index, v);
            s.press.Some? ==>
              0 <= s.press.value.offset && 0 <= s.press.value.noise &&
              9 + s.press.value.offset + s.press.value.noise + 10 <= s.comment.length <= 100
  {
    hide NextRand;
    UnifIntRange(25, 100, Iter(2, v[S_CMNT_SD]));
    var clen := SupplierRow(cfg, index, v).comment.length;
    UnifIntRange(0, clen - 19, Iter(1, v[BBB_JNK_SD]));
    var noise := Draw(v, BBB_JNK_SD, 1, 0, clen - 19);
    UnifIntRange(0, clen - (19 + noise), Iter(1, v[BBB_OFFSET_SD]));
    hide UnifInt;
  }

  /** Every stretch of comment text lies within the pool. */
  lemma TextInPool(v: Streams, s: int, k: nat, min: int, max: int)
    requires IsStream(s) && 0 <= min <= max <= TEXT_POOL_SIZE
    ensures var t := TextDraw(v, s, k, min, max);
            0 <= t.offset && min <= t.length <= max && t.offset + t.length <= TEXT_POOL_SIZE
  {
    UnifIntRange(0, TEXT_POOL_SIZE - max, Iter(k, v[s]));
    UnifIntRange(min, max, Iter(k + 1, v[s]));
    hide UnifInt;
  }

  lemma SomeOfMany(c: nat, js: seq<int>, n: nat)
    requires Shuffle.IsDraws(js, c) && n <= c
    ensures var b := Shuffle.Permuted(Shuffle.Identity(c), js)[..n];
            Shuffle.Distinct(b) && forall i :: 0 <= i < n ==> 0 <= b[i] < c
  {
    var a := Shuffle.Identity(c);
    var b := Shuffle.Permuted(a, js);
    hide Shuffle.Permuted, Shuffle.Identity;
    Shuffle.PermutedDistinct(a, js);
    Shuffle.PermutedKeeps(a, js);
    forall i | 0 <= i < n ensures 0 <= b[i] < c {
      assert b[i] in multiset(b);
      assert b[i] in a;
    }
  }

  /** A part is named after five different colours. */
  lemma NamesAreDistinct(v: Streams)
    ensures |NameDraw(v)| == 5 && Shuffle.Distinct(NameDraw(v))
    ensures forall i :: 0 <= i < 5 ==> 0 <= NameDraw(v)[i] < COLORS
  {
    hide ShuffleDraws, Shuffle.Permuted, Shuffle.Identity;
    SomeOfMany(COLORS, ShuffleDraws(v, P_NAME_SD, 1, COLORS, COLORS), 5);
  }
}
