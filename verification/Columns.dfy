/**
 * Every column of every row, without the functions that compute it: the range it is drawn from, and which values of
 * which stream give which member of the range (build.c, dss.h; section 4.2.3 of the TPC-H specification).
 */
module Columns {
  import opened Rnd
  import opened Tables
  import opened Build
  import opened Runs
  import opened ModArith
  import Calendar
  import Keys
  import Shuffle

  /** The stream value w gives x from [lo, hi]: it lies in the cell of x, one of hi - lo + 1 equally wide ones. */
  predicate Drawn(x: int, lo: int, hi: int, w: Live)
  {
    lo <= x <= hi && (x - lo) * MODULUS <= w * (hi - lo + 1) < (x - lo + 1) * MODULUS
  }

  /** The stream value v gives member i, whose cell is as wide as its weight. */
  predicate Picked(i: nat, w: Weights, v: Live)
  {
    i < |w| && v * w[|w| - 1] < w[i] * MODULUS && forall k :: 0 <= k < i ==> w[k] * MODULUS <= v * w[|w| - 1]
  }

  /** A stretch of text of min to max characters, from anywhere in the pool where max would fit. */
  predicate Written(t: Text, min: int, max: int, v: Live, k: nat)
  {
    Drawn(t.offset, 0, 314572800 - max, Iter(k, v)) && Drawn(t.length, min, max, Iter(k + 1, v))
  }

  predicate Dialled(p: Phone, nation: int, v: Live)
  {
    p.country == 10 + nation % 90 && Drawn(p.area, 100, 999, Iter(1, v)) && Drawn(p.exchange, 100, 999, Iter(2, v)) &&
    Drawn(p.number, 1000, 9999, Iter(3, v))
  }

  /** Five characters are cut from every draw after the one for the length; the last draw may have some to spare. */
  predicate Addressed(address: seq<Live>, alen: int, v: Live)
  {
    Drawn(alen, 10, 40, Iter(1, v)) && 5 * |address| - 5 < alen <= 5 * |address| &&
    forall i :: 0 <= i < |address| ==> address[i] == Iter(i + 2, v)
  }

  lemma IsDrawn(v: Streams, s: int, k: nat, lo: int, hi: int)
    requires IsStream(s) && lo <= hi
    ensures Drawn(Draw(v, s, k, lo, hi), lo, hi, Iter(k, v[s]))
  {
    var w := Iter(k, v[s]);
    UnifIntRange(lo, hi, w);
    UnifIntCell(lo, hi, w, UnifInt(lo, hi, w));
  }

  lemma IsPicked(v: Streams, s: int, k: nat, w: Weights)
    requires IsStream(s)
    ensures Picked(PickDraw(v, s, k, w), w, Iter(k, v[s]))
  {
    var top, x, r := w[|w| - 1], Iter(k, v[s]), PickDraw(v, s, k, w);
    IsDrawn(v, s, k, 1, top);
    var j := Draw(v, s, k, 1, top);
    hide UnifInt, NextRand, Iter;
    MulMono(j, w[r], MODULUS);
    forall i | 0 <= i < r ensures w[i] * MODULUS <= x * top {
      MulMono(w[i], j - 1, MODULUS);
    }
  }

  lemma IsWritten(v: Streams, s: int, k: nat, min: int, max: int)
    requires IsStream(s) && min <= max <= TEXT_POOL_SIZE
    ensures Written(TextDraw(v, s, k, min, max), min, max, v[s], k)
  {
    IsDrawn(v, s, k, 0, TEXT_POOL_SIZE - max);
    IsDrawn(v, s, k + 1, min, max);
  }

  lemma IsDialled(v: Streams, s: int, nation: int)
    requires IsStream(s)
    ensures Dialled(PhoneDraw(v, s, nation), nation, v[s])
  {
    IsDrawn(v, s, 1, 100, 999);
    IsDrawn(v, s, 2, 100, 999);
    IsDrawn(v, s, 3, 1000, 9999);
  }

  lemma {:induction false} RawDrawsAre(v: Live, k: nat, n: nat)
    ensures |RawDraws(v, k, n)| == n && forall i :: 0 <= i < n ==> RawDraws(v, k, n)[i] == Iter(k + i, v)
  {
    hide Iter;
    if n > 0 { RawDrawsAre(v, k, n - 1); }
  }

  lemma IsAddressed(v: Streams, s: int)
    requires IsStream(s)
    ensures var alen := Draw(v, s, 1, 10, 40); Addressed(RawDraws(v[s], 2, CharDraws(alen)), alen, v[s])
  {
    IsDrawn(v, s, 1, 10, 40);
    RawDrawsAre(v[s], 2, CharDraws(Draw(v, s, 1, 10, 40)));
    hide Iter, UnifInt, RawDraws;
  }

  // ----- customers and suppliers -----

  lemma CustomerColumns(cfg: Config, index: int, v: Streams)
    ensures var c := CustomerRow(cfg, index, v);
            c.custkey == index && Addressed(c.address, c.alen, v[C_ADDR_SD]) &&
            Drawn(c.nation, 0, cfg.nations - 1, Iter(1, v[C_NTRG_SD])) && Dialled(c.phone, c.nation, v[C_PHNE_SD]) &&
            Drawn(c.acctbal, -99999, 999999, Iter(1, v[C_ABAL_SD])) &&
            Picked(c.mktsegment, cfg.cSegments, Iter(1, v[C_MSEG_SD])) && Written(c.comment, 29, 116, v[C_CMNT_SD], 1)
  {
    IsAddressed(v, C_ADDR_SD);
    IsDrawn(v, C_NTRG_SD, 1, 0, cfg.nations - 1);
    IsDialled(v, C_PHNE_SD, Draw(v, C_NTRG_SD, 1, 0, cfg.nations - 1));
    IsDrawn(v, C_ABAL_SD, 1, -99999, 999999);
    IsPicked(v, C_MSEG_SD, 1, cfg.cSegments);
    IsWritten(v, C_CMNT_SD, 1, 29, 116);
    hide Draw, Iter, PickDraw, TextDraw, PhoneDraw, RawDraws, Addressed, Drawn, Dialled, Picked, Written;
  }

  lemma SupplierColumns(cfg: Config, index: int, v: Streams)
    ensures var s := SupplierRow(cfg, index, v);
            s.suppkey == index && Addressed(s.address, s.alen, v[S_ADDR_SD]) &&
            Drawn(s.nation, 0, cfg.nations - 1, Iter(1, v[S_NTRG_SD])) && Dialled(s.phone, s.nation, v[S_PHNE_SD]) &&
            Drawn(s.acctbal, -99999, 999999, Iter(1, v[S_ABAL_SD])) && Written(s.comment, 25, 100, v[S_CMNT_SD], 1)
  {
    IsAddressed(v, S_ADDR_SD);
    IsDrawn(v, S_NTRG_SD, 1, 0, cfg.nations - 1);
    IsDialled(v, S_PHNE_SD, Draw(v, S_NTRG_SD, 1, 0, cfg.nations - 1));
    IsDrawn(v, S_ABAL_SD, 1, -99999, 999999);
    IsWritten(v, S_CMNT_SD, 1, 25, 100);
    hide Draw, Iter, PickDraw, TextDraw, PhoneDraw, RawDraws, PressDraw, Addressed, Drawn, Dialled, Picked, Written;
  }

  /**
   * Ten suppliers in 10000 have words woven into their comments, a complaint for the lower 50 of 101 draws; the words
   * take 19 characters, and what is left of the comment is shared between noise and offset.
   */
  lemma PressColumns(cfg: Config, index: int, v: Streams)
    ensures var s := SupplierRow(cfg, index, v);
            (s.press.Some? <==> Iter(1, v[BBB_CMNT_SD]) * 10000 < 10 * MODULUS) &&
            (s.press.Some? ==>
               var p := s.press.value;
               (p.complaint <==> Iter(1, v[BBB_TYPE_SD]) * 101 < 50 * MODULUS) &&
               Drawn(p.noise, 0, s.comment.length - 19, Iter(1, v[BBB_JNK_SD])) &&
               Drawn(p.offset, 0, s.comment.length - 19 - p.noise, Iter(1, v[BBB_OFFSET_SD])))
  {
    IsWritten(v, S_CMNT_SD, 1, 25, 100);
    var clen := TextDraw(v, S_CMNT_SD, 1, 25, 100).length;
    IsDrawn(v, BBB_CMNT_SD, 1, 1, 10000);
    IsDrawn(v, BBB_TYPE_SD, 1, 0, 100);
    IsDrawn(v, BBB_JNK_SD, 1, 0, clen - 19);
    IsDrawn(v, BBB_OFFSET_SD, 1, 0, clen - (19 + Draw(v, BBB_JNK_SD, 1, 0, clen - 19)));
    hide Draw, Iter, TextDraw, PhoneDraw, RawDraws;
  }

  // ----- parts -----

  /** A part's brand is one of the five of its manufacturer. */
  lemma PartColumns(cfg: Config, index: nat, v: Streams)
    ensures var p := PartRow(cfg, index, v);
            p.partkey == index && Drawn(p.mfgr, 1, 5, Iter(1, v[P_MFG_SD])) &&
            p.brand / 10 == p.mfgr && Drawn(p.brand % 10, 1, 5, Iter(1, v[P_BRND_SD])) &&
            Picked(p.ptype, cfg.pTypes, Iter(1, v[P_TYPE_SD])) && Drawn(p.size, 1, 50, Iter(1, v[P_SIZE_SD])) &&
            Picked(p.container, cfg.pContainers, Iter(1, v[P_CNTR_SD])) &&
            p.retailprice == Keys.RetailPrice(index) && Written(p.comment, 5, 22, v[P_CMNT_SD], 1)
  {
    IsDrawn(v, P_MFG_SD, 1, 1, 5);
    IsDrawn(v, P_BRND_SD, 1, 1, 5);
    IsPicked(v, P_TYPE_SD, 1, cfg.pTypes);
    IsDrawn(v, P_SIZE_SD, 1, 1, 50);
    IsPicked(v, P_CNTR_SD, 1, cfg.pContainers);
    IsWritten(v, P_CMNT_SD, 1, 5, 22);
    hide Draw, Iter, PickDraw, TextDraw, NameDraw, Keys.RetailPrice, Picked, Written;
  }

  /** Where draw k of the shuffle of the colours points. */
  function ColourDraw(v: Streams, k: nat): int
  {
    Draw(v, P_NAME_SD, k + 1, k, 91)
  }

  lemma {:induction false} ShuffleDrawAt(v: Streams, n: nat, k: nat)
    requires k < n <= COLORS
    ensures ShuffleDraws(v, P_NAME_SD, 1, COLORS, n)[k] == ColourDraw(v, k)
  {
    hide Draw;
    if k < n - 1 { ShuffleDrawAt(v, n - 1, k); }
  }

  /** Word k of a part's name is the colour that draw k points at, if no earlier draw pointed there. */
  lemma NameColumns(v: Streams, k: nat)
    requires k < 5
    ensures Drawn(ColourDraw(v, k), k, 91, Iter(k + 1, v[P_NAME_SD]))
    ensures (forall i :: 0 <= i < k ==> ColourDraw(v, i) != ColourDraw(v, k)) ==> NameDraw(v)[k] == ColourDraw(v, k)
  {
    var js := ShuffleDraws(v, P_NAME_SD, 1, COLORS, COLORS);
    IsDrawn(v, P_NAME_SD, k + 1, k, 91);
    ShuffleDrawAt(v, COLORS, k);
    forall i | 0 <= i < k ensures js[i] == ColourDraw(v, i) {
      ShuffleDrawAt(v, COLORS, i);
    }
    hide ShuffleDraws, ColourDraw, Shuffle.Permuted, Shuffle.Identity;
    if forall i :: 0 <= i < k ==> ColourDraw(v, i) != js[k] {
      Shuffle.FirstDrawn(Shuffle.Identity(COLORS), js, k);
    }
  }

  lemma {:induction false} PartSuppAt(cfg: Config, index: nat, v: Streams, n: nat, k: nat)
    requires k < n
    ensures |PartSuppRows(cfg, index, v, n)| == n && PartSuppRows(cfg, index, v, n)[k] == PartSuppRow(cfg, index, v, k)
  {
    hide PartSuppRow;
    if k < n - 1 {
      PartSuppAt(cfg, index, v, n - 1, k);
    } else if n > 1 {
      PartSuppAt(cfg, index, v, n - 1, 0);
    }
  }

  lemma PartSuppColumns(cfg: Config, index: nat, v: Streams, k: nat)
    requires k < SUPP_PER_PART
    ensures cfg.Total(SUPP) > 0 && |PartSuppRows(cfg, index, v, SUPP_PER_PART)| == 4
    ensures var ps := PartSuppRows(cfg, index, v, SUPP_PER_PART)[k];
            ps.partkey == index && ps.suppkey == Keys.Bridge(cfg.Total(SUPP), index, k) &&
            Drawn(ps.qty, 1, 9999, Iter(k + 1, v[PS_QTY_SD])) &&
            Drawn(ps.scost, 100, 100000, Iter(k + 1, v[PS_SCST_SD])) &&
            Written(ps.comment, 49, 198, v[PS_CMNT_SD], 2 * k + 1)
  {
    cfg.TotalPositive(SUPP);
    PartSuppAt(cfg, index, v, SUPP_PER_PART, k);
    IsDrawn(v, PS_QTY_SD, k + 1, 1, 9999);
    IsDrawn(v, PS_SCST_SD, k + 1, 100, 100000);
    IsWritten(v, PS_CMNT_SD, 2 * k + 1, 49, 198);
    hide Draw, Iter, TextDraw, Settings.Total, Keys.Bridge, PartSuppRows, Drawn, Written;
  }

  // ----- orders -----

  lemma DrawnShifted(x: int, lo: int, hi: int, d: int, w: Live)
    ensures Drawn(x, lo, hi, w) <==> Drawn(x - d, lo - d, hi - d, w)
  {}

  /** The customer is the one drawn; from a multiple of three it moves one up, or down from the last customer. */
  lemma OrderColumns(cfg: OrderConfig, index: nat, upd: nat, v: Streams) returns (drawn: int)
    ensures Drawn(drawn, 1, cfg.custBase * cfg.scale, Iter(1, v[O_CKEY_SD]))
    ensures var o := OrderRow(cfg, index, upd, v);
            o.custkey == (if drawn % 3 != 0 then drawn
                          else if drawn < cfg.custBase * cfg.scale then drawn + 1 else drawn - 1) &&
            Drawn(o.odate, 0, 2405, Iter(1, v[O_ODATE_SD])) &&
            Picked(o.priority, cfg.oPriorities, Iter(1, v[O_PRIO_SD])) &&
            Drawn(o.clerk, 1, 1000 * cfg.scale, Iter(1, v[O_CLRK_SD])) && Written(o.comment, 19, 78, v[O_CMNT_SD], 1)
  {
    cfg.TotalPositive(CUST);
    drawn := Draw(v, O_CKEY_SD, 1, 1, cfg.Total(CUST));
    IsDrawn(v, O_CKEY_SD, 1, 1, cfg.Total(CUST));
    IsDrawn(v, O_ODATE_SD, 1, O_ODATE_MIN, O_ODATE_MAX);
    DrawnShifted(OrderDate(v), O_ODATE_MIN, O_ODATE_MAX, Calendar.STARTDATE, Iter(1, v[O_ODATE_SD]));
    IsPicked(v, O_PRIO_SD, 1, cfg.oPriorities);
    IsDrawn(v, O_CLRK_SD, 1, 1, cfg.scale * 1000);
    IsWritten(v, O_CMNT_SD, 1, 19, 78);
    hide Draw, Iter, PickDraw, TextDraw, TotalCharge, LineCount, ShippedBefore, Keys.MkSparse, Picked, Written;
    hide Drawn;
  }

  /** What some lines charge together. */
  function Charges(ls: seq<Line>): int
  {
    if ls == [] then 0 else Charges(ls[..|ls| - 1]) + Charge(ls[|ls| - 1])
  }

  /** The lines among ls that carry a return flag. */
  function Flags(ls: seq<Line>): nat
  {
    if ls == [] then 0 else Flags(ls[..|ls| - 1]) + (if ls[|ls| - 1].rflag.Some? then 1 else 0)
  }

  lemma {:induction false} LineAt(cfg: OrderConfig, okey: int, v: Streams, n: nat, k: nat)
    requires k < n
    ensures Lines(cfg, okey, v, n)[k] == LineRow(cfg, okey, v, k)
  {
    hide LineRow;
    if k < n - 1 { LineAt(cfg, okey, v, n - 1, k); }
  }

  lemma {:induction false} FirstLines(cfg: OrderConfig, okey: int, v: Streams, n: nat, k: nat)
    requires k <= n
    ensures Lines(cfg, okey, v, n)[..k] == Lines(cfg, okey, v, k)
  {
    hide LineRow;
    if k < n { FirstLines(cfg, okey, v, n - 1, k); }
  }

  lemma {:induction false} ChargesOfLines(cfg: OrderConfig, okey: int, v: Streams, n: nat)
    ensures Charges(Lines(cfg, okey, v, n)) == TotalCharge(cfg, okey, v, n)
  {
    hide LineRow, Charge;
    if n > 0 {
      ChargesOfLines(cfg, okey, v, n - 1);
      FirstLines(cfg, okey, v, n, n - 1);
      LineAt(cfg, okey, v, n, n - 1);
      hide Lines;
    }
  }

  lemma LineKeeps(cfg: OrderConfig, okey: int, v: Streams, k: nat)
    ensures var l := LineRow(cfg, okey, v, k);
            l.okey == okey && l.lcnt == k + 1 && (l.shipped <==> Shipped(v, k)) && (l.rflag.Some? <==> Returned(v, k))
  {
    hide Shipped, Returned, Draw, PickDraw, TextDraw, ShipDate, CommitDate, ReceiptDate, Settings.Total, Keys.Bridge;
  }

  /** Whether all of the lines have been shipped, and whether none has. */
  ghost predicate AllShipped(ls: seq<Line>) { forall k :: 0 <= k < |ls| ==> ls[k].shipped }

  ghost predicate NoneShipped(ls: seq<Line>) { forall k :: 0 <= k < |ls| ==> !ls[k].shipped }

  lemma OneMoreShipped(ls: seq<Line>, l: Line)
    ensures AllShipped(ls + [l]) <==> AllShipped(ls) && l.shipped
    ensures NoneShipped(ls + [l]) <==> NoneShipped(ls) && !l.shipped
  {
    var more := ls + [l];
    assert more[|ls|] == l && forall k :: 0 <= k < |ls| ==> more[k] == ls[k];
  }

  lemma {:induction false} CountsOfLines(cfg: OrderConfig, okey: int, v: Streams, n: nat)
    ensures var ls := Lines(cfg, okey, v, n);
            (ShippedBefore(v, n) == n <==> AllShipped(ls)) && (ShippedBefore(v, n) == 0 <==> NoneShipped(ls))
  {
    hide LineRow, Shipped;
    if n > 0 {
      hide AllShipped, NoneShipped;
      CountsOfLines(cfg, okey, v, n - 1);
      LineKeeps(cfg, okey, v, n - 1);
      OneMoreShipped(Lines(cfg, okey, v, n - 1), LineRow(cfg, okey, v, n - 1));
    }
  }

  lemma {:induction false} FlagsOfLines(cfg: OrderConfig, okey: int, v: Streams, n: nat)
    ensures Flags(Lines(cfg, okey, v, n)) == ReturnedBefore(v, n)
  {
    hide LineRow, Returned;
    if n > 0 {
      FlagsOfLines(cfg, okey, v, n - 1);
      FirstLines(cfg, okey, v, n, n - 1);
      LineAt(cfg, okey, v, n, n - 1);
      LineKeeps(cfg, okey, v, n - 1);
      hide Lines;
    }
  }

  /**
   * An order and its lines: one to seven, numbered, under the order's key; the total is what the lines charge, and the
   * status is filled if all of them have been shipped, open if none has, and partial otherwise.
   */
  lemma OrderOfItsLines(cfg: OrderConfig, index: nat, upd: nat, v: Streams)
    ensures var row := MakeRow(cfg, ORDER_LINE, index, upd, v);
            row.OrderMade? && row.o.okey == Keys.MkSparse(index, if upd == 0 then 0 else 1 + upd / 1000) &&
            Drawn(|row.ls|, 1, 7, Iter(1, v[O_LCNT_SD])) && row.o.totalprice == Charges(row.ls) &&
            (forall k :: 0 <= k < |row.ls| ==> row.ls[k].okey == row.o.okey && row.ls[k].lcnt == k + 1) &&
            (row.o.status == Filled <==> AllShipped(row.ls)) && (row.o.status == Open <==> NoneShipped(row.ls))
  {
    var okey, n := Keys.MkSparse(index, Generation(upd)), LineCount(v);
    IsDrawn(v, O_LCNT_SD, 1, 1, O_LCNT_MAX);
    CountsOfLines(cfg, okey, v, n);
    ChargesOfLines(cfg, okey, v, n);
    forall k | 0 <= k < n ensures Lines(cfg, okey, v, n)[k].okey == okey && Lines(cfg, okey, v, n)[k].lcnt == k + 1 {
      LineAt(cfg, okey, v, n, k);
      LineKeeps(cfg, okey, v, k);
    }
    hide Lines, LineRow, TotalCharge, Charges, ShippedBefore, Draw, Iter, PickDraw, TextDraw, Buyer, Settings.Total;
    hide Keys.MkSparse, AllShipped, NoneShipped;
  }

  /** A line's part, price, discount and tax, and the supplier, one of the part's four. */
  lemma LineColumns(cfg: OrderConfig, okey: int, v: Streams, k: nat) returns (which: int)
    ensures cfg.Total(SUPP) > 0 && Drawn(which, 0, 3, Iter(k + 1, v[L_SKEY_SD]))
    ensures var l := LineRow(cfg, okey, v, k);
            Drawn(l.partkey, 1, cfg.partBase * cfg.scale, Iter(k + 1, v[L_PKEY_SD])) &&
            l.suppkey == Keys.Bridge(cfg.Total(SUPP), l.partkey, which) &&
            Drawn(l.quantity, 1, 50, Iter(k + 1, v[L_QTY_SD])) &&
            l.eprice == l.quantity * Keys.RetailPrice(l.partkey) &&
            Drawn(l.discount, 0, 10, Iter(k + 1, v[L_DCNT_SD])) && Drawn(l.tax, 0, 8, Iter(k + 1, v[L_TAX_SD]))
  {
    cfg.TotalPositive(SUPP);
    cfg.TotalPositive(PART);
    which := Draw(v, L_SKEY_SD, k + 1, 0, 3);
    IsDrawn(v, L_SKEY_SD, k + 1, 0, 3);
    IsDrawn(v, L_PKEY_SD, k + 1, 1, cfg.Total(PART));
    IsDrawn(v, L_QTY_SD, k + 1, 1, 50);
    IsDrawn(v, L_DCNT_SD, k + 1, 0, 10);
    IsDrawn(v, L_TAX_SD, k + 1, 0, 8);
    hide Draw, Iter, PickDraw, TextDraw, Keys.Bridge, Keys.RetailPrice, ShipDate, CommitDate, ReceiptDate, Returned;
    hide Shipped, Drawn;
  }

  /** How a line is shipped, and when: within 121 days of the order, received within 30 days of that. */
  lemma LineDates(cfg: OrderConfig, index: nat, upd: nat, v: Streams, k: nat)
    ensures var o := OrderRow(cfg, index, upd, v);
            var l := LineRow(cfg, o.okey, v, k);
            Picked(l.shipinstruct, cfg.lInstructions, Iter(k + 1, v[L_SHIP_SD])) &&
            Picked(l.shipmode, cfg.lModes, Iter(k + 1, v[L_SMODE_SD])) &&
            Written(l.comment, 10, 43, v[L_CMNT_SD], 2 * k + 1) &&
            Drawn(l.sdate - o.odate, 1, 121, Iter(k + 1, v[L_SDTE_SD])) &&
            Drawn(l.cdate - o.odate, 30, 90, Iter(k + 1, v[L_CDTE_SD])) &&
            Drawn(l.rdate - l.sdate, 1, 30, Iter(k + 1, v[L_RDTE_SD]))
  {
    IsPicked(v, L_SHIP_SD, k + 1, cfg.lInstructions);
    IsPicked(v, L_SMODE_SD, k + 1, cfg.lModes);
    IsWritten(v, L_CMNT_SD, 2 * k + 1, 10, 43);
    IsDrawn(v, L_SDTE_SD, k + 1, 1, 121);
    IsDrawn(v, L_CDTE_SD, k + 1, 30, 90);
    IsDrawn(v, L_RDTE_SD, k + 1, 1, 30);
    hide Draw, Iter, PickDraw, TextDraw, Keys.Bridge, Keys.RetailPrice, Returned, Shipped, Drawn, Picked, Written;
    hide Settings.Total, TotalCharge, LineCount, ShippedBefore, Buyer, Keys.MkSparse;
  }

  lemma LineFlag(cfg: OrderConfig, okey: int, v: Streams, k: nat)
    ensures var flag := LineRow(cfg, okey, v, k).rflag;
            flag.Some? ==> flag.value == PickDraw(v, L_RFLG_SD, ReturnedBefore(v, k) + 1, cfg.lFlags)
  {
    hide Draw, PickDraw, TextDraw, Keys.Bridge, Keys.RetailPrice, Returned, Shipped, ShipDate, CommitDate, ReceiptDate;
    hide Settings.Total, ReturnedBefore;
  }

  /** Return flags are drawn one after the other by the lines that have one, and by no others. */
  lemma LineFlags(cfg: OrderConfig, okey: int, v: Streams, n: nat, k: nat)
    requires k < n
    ensures var ls := Lines(cfg, okey, v, n);
            ls[k].rflag.Some? ==> Picked(ls[k].rflag.value, cfg.lFlags, Iter(Flags(ls[..k]) + 1, v[L_RFLG_SD]))
  {
    hide Iter, PickDraw, Picked, Lines, LineRow, Flags, ReturnedBefore;
    LineAt(cfg, okey, v, n, k);
    FirstLines(cfg, okey, v, n, k);
    FlagsOfLines(cfg, okey, v, k);
    LineFlag(cfg, okey, v, k);
    IsPicked(v, L_RFLG_SD, ReturnedBefore(v, k) + 1, cfg.lFlags);
  }

  // ----- nations and regions -----

  /** Row `index` of a code table comes after two draws for every row before it. */
  lemma {:induction false} CodeColumns(cfg: Config, t: int, index: nat, v: Streams)
    requires (t == NATION || t == REGION) && index >= 1
    ensures var s := if t == NATION then N_CMNT_SD else R_CMNT_SD;
            var row := MakeRow(cfg, t, index, 0, AfterRows(t, index - 1, v));
            row.CodeMade? && row.code.code == index - 1 && Written(row.code.comment, 28, 115, v[s], 2 * index - 1)
  {
    var s, n, w := if t == NATION then N_CMNT_SD else R_CMNT_SD, index - 1, AfterRows(t, index - 1, v);
    CodeStream(t, n, v);
    IsWritten(w, s, 1, 28, 115);
    IterAdd(1, 2 * n, v[s]);
    IterAdd(2, 2 * n, v[s]);
    hide AfterRows, TextDraw, Iter, Drawn;
  }

  lemma {:induction false} CodeStream(t: int, n: nat, v: Streams)
    requires t == NATION || t == REGION
    ensures var s := if t == NATION then N_CMNT_SD else R_CMNT_SD; AfterRows(t, n, v)[s] == Iter(2 * n, v[s])
  {
    hide NextRand;
    if n > 0 {
      var s := if t == NATION then N_CMNT_SD else R_CMNT_SD;
      CodeStream(t, n - 1, v);
      IterAdd(2, 2 * (n - 1), v[s]);
    }
  }
}
