/**
 * Rows of the population of scale 1 that the distributed answers to the benchmark's queries show, computed from the
 * declared seeds (answers/q2.out, q10.out and q18.out).
 */
module Answers {
  import opened Rnd
  import opened Tables
  import opened Build
  import opened Runs
  import opened Parallel
  import Calendar
  import Columns
  import Keys
  import Money
  import Period

  /** The row counts that the program declares, at scale 1. */
  predicate ScaleOne(cfg: Config)
  {
    cfg.scale == 1 && cfg.partBase == 200000 && cfg.suppBase == 10000 && cfg.custBase == 150000 &&
    cfg.orderBase == 1500000 && cfg.nations == 25
  }

  // ----- drawing -----

  /** Where a stream is after n rows, from a power of the multiplier. */
  lemma StartsAt(t: int, n: nat, s: int, k: nat, p: Live, w: Live)
    requires IsChunked(t) && IsStream(s) && SkipPerRow(t, s) * n == k
    requires Iter(k, 1) == p && INITIAL_VALUES[s] * p % 2147483647 == w
    ensures Skipped(t, n, INITIAL_VALUES)[s] == w && Iter(0, Skipped(t, n, INITIAL_VALUES)[s]) == w
  {
    Period.IterScale(k, INITIAL_VALUES[s]);
  }

  /** The next draw of a stream. */
  lemma Next(v: Streams, s: int, k: nat, w: Live, next: Live, lo: int, hi: int, x: int)
    requires IsStream(s) && Iter(k, v[s]) == w && w * 16807 % 2147483647 == next
    requires lo <= hi && (x - lo) * 2147483647 <= next * (hi - lo + 1) < (x - lo + 1) * 2147483647
    ensures Iter(k + 1, v[s]) == next && Draw(v, s, k + 1, lo, hi) == x
  {
    UnifIntCell(lo, hi, next, x);
  }

  // ----- the first order of answers/q18.out -----

  lemma Power1180508()
    ensures Iter(1180508, 1) == 1536617133
    ensures Iter(2361016, 1) == 426115207
    ensures Iter(3541524, 1) == 1152399284
    ensures Iter(7083048, 1) == 1752892504
    ensures Iter(8263556, 1) == 728564806
  {
    hide Iter;
    Period.FirstPower();
    Period.Times(1, 16807, 1, 16807); Period.Times(2, 282475249, 2, 282475249);
    Period.Times(4, 984943658, 4, 984943658); Period.Times(8, 1457850878, 1, 16807);
    Period.Times(9, 1458777923, 9, 1458777923); Period.Times(18, 16531729, 18, 16531729);
    Period.Times(36, 704877633, 36, 704877633); Period.Times(72, 824938981, 72, 824938981);
    Period.Times(144, 318153057, 144, 318153057); Period.Times(288, 855007065, 288, 855007065);
    Period.Times(576, 987333029, 576, 987333029); Period.Times(1152, 1785742192, 1152, 1785742192);
    Period.Times(2304, 742794024, 1, 16807); Period.Times(2305, 816721357, 2305, 816721357);
    Period.Times(4610, 1029784967, 1, 16807); Period.Times(4611, 1025229196, 4611, 1025229196);
    Period.Times(9222, 990437134, 9222, 990437134); Period.Times(18444, 1114870530, 1, 16807);
    Period.Times(18445, 834177635, 18445, 834177635); Period.Times(36890, 846149195, 36890, 846149195);
    Period.Times(73780, 7142660, 1, 16807); Period.Times(73781, 1935086035, 73781, 1935086035);
    Period.Times(147562, 412508971, 1, 16807); Period.Times(147563, 961063081, 147563, 961063081);
    Period.Times(295126, 701570822, 1, 16807); Period.Times(295127, 1615583324, 295127, 1615583324);
    Period.Times(590254, 1161122443, 590254, 1161122443); Period.Times(1180508, 1536617133, 1180508, 1536617133);
    Period.Times(2361016, 426115207, 1180508, 1536617133); Period.Times(3541524, 1152399284, 3541524, 1152399284);
    Period.Times(7083048, 1752892504, 1180508, 1536617133);
  }

  /** The streams of order 4722021, the 1180509th. */
  function OrderStart(): Streams { Skipped(ORDER_LINE, 1180508, INITIAL_VALUES) }

  lemma OrderHead()
    ensures Draw(OrderStart(), O_CKEY_SD, 1, 1, 150000) == 128120
    ensures Draw(OrderStart(), O_ODATE_SD, 1, 92001, 94406) == 92828
    ensures Draw(OrderStart(), O_LCNT_SD, 1, 1, 7) == 7
  {
    hide Iter, Draw, NextRand;
    Power1180508();
    var v := OrderStart();
    StartsAt(ORDER_LINE, 1180508, O_CKEY_SD, 1180508, 1536617133, 1516010009);
    Next(v, O_CKEY_SD, 0, 1516010009, 1834233255, 1, 150000, 128120);
    StartsAt(ORDER_LINE, 1180508, O_ODATE_SD, 1180508, 1536617133, 1662500643);
    Next(v, O_ODATE_SD, 0, 1662500643, 738575784, 92001, 94406, 92828);
    StartsAt(ORDER_LINE, 1180508, O_LCNT_SD, 1180508, 1536617133, 1418904150);
    Next(v, O_LCNT_SD, 0, 1418904150, 1863632762, 1, 7, 7);
  }

  lemma OrderQuantities()
    ensures Draw(OrderStart(), L_QTY_SD, 1, 1, 50) == 49 && Draw(OrderStart(), L_QTY_SD, 2, 1, 50) == 46 &&
            Draw(OrderStart(), L_QTY_SD, 3, 1, 50) == 45 && Draw(OrderStart(), L_QTY_SD, 4, 1, 50) == 43 &&
            Draw(OrderStart(), L_QTY_SD, 5, 1, 50) == 47 && Draw(OrderStart(), L_QTY_SD, 6, 1, 50) == 44 &&
            Draw(OrderStart(), L_QTY_SD, 7, 1, 50) == 49
  {
    hide Iter, Draw, NextRand;
    Power1180508();
    var v := OrderStart();
    StartsAt(ORDER_LINE, 1180508, L_QTY_SD, 8263556, 728564806, 2078355800);
    Next(v, L_QTY_SD, 0, 2078355800, 2104412145, 1, 50, 49);
    Next(v, L_QTY_SD, 1, 2104412145, 1946738572, 1, 50, 46);
    Next(v, L_QTY_SD, 2, 1946738572, 1921817559, 1, 50, 45);
    Next(v, L_QTY_SD, 3, 1921817559, 1833663233, 1, 50, 43);
    Next(v, L_QTY_SD, 4, 1833663233, 1987622581, 1, 50, 47);
    Next(v, L_QTY_SD, 5, 1987622581, 1864589782, 1, 50, 44);
    Next(v, L_QTY_SD, 6, 1864589782, 2079089050, 1, 50, 49);
  }

  lemma OrderDiscounts()
    ensures Draw(OrderStart(), L_DCNT_SD, 1, 0, 10) == 3 && Draw(OrderStart(), L_DCNT_SD, 2, 0, 10) == 2 &&
            Draw(OrderStart(), L_DCNT_SD, 3, 0, 10) == 0 && Draw(OrderStart(), L_DCNT_SD, 4, 0, 10) == 4 &&
            Draw(OrderStart(), L_DCNT_SD, 5, 0, 10) == 7 && Draw(OrderStart(), L_DCNT_SD, 6, 0, 10) == 5 &&
            Draw(OrderStart(), L_DCNT_SD, 7, 0, 10) == 7
  {
    hide Iter, Draw, NextRand;
    Power1180508();
    var v := OrderStart();
    StartsAt(ORDER_LINE, 1180508, L_DCNT_SD, 8263556, 728564806, 369942622);
    Next(v, L_DCNT_SD, 0, 369942622, 660489889, 0, 10, 3);
    Next(v, L_DCNT_SD, 1, 660489889, 510593080, 0, 10, 2);
    Next(v, L_DCNT_SD, 2, 510593080, 193242148, 0, 10, 0);
    Next(v, L_DCNT_SD, 3, 193242148, 825507172, 0, 10, 4);
    Next(v, L_DCNT_SD, 4, 825507172, 1554680184, 0, 10, 7);
    Next(v, L_DCNT_SD, 5, 1554680184, 1076319439, 0, 10, 5);
    Next(v, L_DCNT_SD, 6, 1076319439, 1446052592, 0, 10, 7);
  }

  lemma OrderTaxes()
    ensures Draw(OrderStart(), L_TAX_SD, 1, 0, 8) == 8 && Draw(OrderStart(), L_TAX_SD, 2, 0, 8) == 2 &&
            Draw(OrderStart(), L_TAX_SD, 3, 0, 8) == 1 && Draw(OrderStart(), L_TAX_SD, 4, 0, 8) == 4 &&
            Draw(OrderStart(), L_TAX_SD, 5, 0, 8) == 7 && Draw(OrderStart(), L_TAX_SD, 6, 0, 8) == 7 &&
            Draw(OrderStart(), L_TAX_SD, 7, 0, 8) == 1
  {
    hide Iter, Draw, NextRand;
    Power1180508();
    var v := OrderStart();
    StartsAt(ORDER_LINE, 1180508, L_TAX_SD, 8263556, 728564806, 600524468);
    Next(v, L_TAX_SD, 0, 600524468, 1989076423, 0, 8, 8);
    Next(v, L_TAX_SD, 1, 1989076423, 529508512, 0, 8, 2);
    Next(v, L_TAX_SD, 2, 529508512, 277328016, 0, 8, 1);
    Next(v, L_TAX_SD, 3, 277328016, 1012450922, 0, 8, 4);
    Next(v, L_TAX_SD, 4, 1012450922, 1749710873, 0, 8, 7);
    Next(v, L_TAX_SD, 5, 1749710873, 1897064140, 0, 8, 7);
    Next(v, L_TAX_SD, 6, 1897064140, 267293971, 0, 8, 1);
  }

  lemma OrderParts()
    ensures Draw(OrderStart(), L_PKEY_SD, 1, 1, 200000) == 98464 &&
            Draw(OrderStart(), L_PKEY_SD, 2, 1, 200000) == 74802 &&
            Draw(OrderStart(), L_PKEY_SD, 3, 1, 200000) == 181664 &&
            Draw(OrderStart(), L_PKEY_SD, 4, 1, 200000) == 14994 &&
            Draw(OrderStart(), L_PKEY_SD, 5, 1, 200000) == 809 &&
            Draw(OrderStart(), L_PKEY_SD, 6, 1, 200000) == 184923 &&
            Draw(OrderStart(), L_PKEY_SD, 7, 1, 200000) == 193129
  {
    hide Iter, Draw, NextRand;
    Power1180508();
    var v := OrderStart();
    StartsAt(ORDER_LINE, 1180508, L_PKEY_SD, 8263556, 728564806, 1566817500);
    Next(v, L_PKEY_SD, 0, 1566817500, 1057242986, 1, 200000, 98464);
    Next(v, L_PKEY_SD, 1, 1057242986, 803170424, 1, 200000, 74802);
    Next(v, L_PKEY_SD, 2, 803170424, 1950594773, 1, 200000, 181664);
    Next(v, L_PKEY_SD, 3, 1950594773, 160994709, 1, 200000, 14994);
    Next(v, L_PKEY_SD, 4, 160994709, 8678943, 1, 200000, 809);
    Next(v, L_PKEY_SD, 5, 8678943, 1985590652, 1, 200000, 184923);
    Next(v, L_PKEY_SD, 6, 1985590652, 2073697431, 1, 200000, 193129);
  }

  /** What some lines order together. */
  function Quantity(ls: seq<Line>): int
  {
    if ls == [] then 0 else Quantity(ls[..|ls| - 1]) + ls[|ls| - 1].quantity
  }

  /** One more line, of q pieces of part p: at the price r each, e in all, f with the discount and `charge` with tax. */
  lemma AddLine(cfg: OrderConfig, okey: int, v: Streams, k: nat, p: int, q: int, d: int, t: int, total: int, sum: int,
                r: int, e: int, f: int, charge: int)
    requires cfg.Total(PART) == 200000
    requires Draw(v, L_PKEY_SD, k + 1, 1, 200000) == p && Draw(v, L_QTY_SD, k + 1, 1, 50) == q
    requires Draw(v, L_DCNT_SD, k + 1, 0, 10) == d && Draw(v, L_TAX_SD, k + 1, 0, 8) == t
    requires TotalCharge(cfg, okey, v, k) == total && Quantity(Lines(cfg, okey, v, k)) == sum
    requires 90000 + p / 10 % 20001 + p % 1000 * 100 == r && r * q == e
    requires e * (100 - d) / 100 == f && f * (100 + t) / 100 == charge
    ensures TotalCharge(cfg, okey, v, k + 1) == total + charge
    ensures Quantity(Lines(cfg, okey, v, k + 1)) == sum + q
  {
    hide Draw, PickDraw, TextDraw, ShipDate, CommitDate, ReceiptDate, Returned, Shipped, ReturnedBefore, Keys.Bridge;
    hide Settings.Total;
    assert Lines(cfg, okey, v, k + 1)[..k] == Lines(cfg, okey, v, k);
  }

  lemma FirstFour(cfg: OrderConfig)
    requires ScaleOne(cfg)
    ensures TotalCharge(cfg, 4722021, OrderStart(), 4) == 31806713
    ensures Quantity(Lines(cfg, 4722021, OrderStart(), 4)) == 183
  {
    hide Draw, OrderStart, TotalCharge, Lines, Quantity;
    var v := OrderStart();
    OrderQuantities();
    OrderDiscounts();
    OrderTaxes();
    OrderParts();
    NoLines(cfg, 4722021, v);
    AddLine(cfg, 4722021, v, 0, 98464, 49, 3, 8, 0, 0, 146246, 7166054, 6951072, 7507157);
    AddLine(cfg, 4722021, v, 1, 74802, 46, 2, 2, 7507157, 49, 177680, 8173280, 8009814, 8170010);
    AddLine(cfg, 4722021, v, 2, 181664, 45, 0, 1, 15677167, 95, 174566, 7855470, 7855470, 7934024);
    AddLine(cfg, 4722021, v, 3, 14994, 43, 4, 4, 23611191, 140, 190899, 8208657, 7880310, 8195522);
  }

  lemma OrderTotal(cfg: OrderConfig)
    requires ScaleOne(cfg)
    ensures TotalCharge(cfg, 4722021, OrderStart(), 7) == 54408909
    ensures Quantity(Lines(cfg, 4722021, OrderStart(), 7)) == 323
  {
    hide Draw, OrderStart, TotalCharge, Lines, Quantity;
    var v := OrderStart();
    OrderQuantities();
    OrderDiscounts();
    OrderTaxes();
    OrderParts();
    FirstFour(cfg);
    AddLine(cfg, 4722021, v, 4, 809, 47, 7, 7, 31806713, 183, 170980, 8036060, 7473535, 7996682);
    AddLine(cfg, 4722021, v, 5, 184923, 44, 5, 7, 39803395, 230, 200792, 8834848, 8393105, 8980622);
    AddLine(cfg, 4722021, v, 6, 193129, 49, 7, 1, 48784017, 274, 122212, 5988388, 5569200, 5624892);
  }

  lemma NoLines(cfg: OrderConfig, okey: int, v: Streams)
    ensures TotalCharge(cfg, okey, v, 0) == 0 && Quantity(Lines(cfg, okey, v, 0)) == 0
  {}

  lemma TextOf54408909()
    ensures Money.MoneyText(54408909) == "544089.09"
  {
    assert Money.Digits(5) == "5" && Money.Digits(54) == "54" && Money.Digits(544) == "544";
    assert Money.Digits(5440) == "5440" && Money.Digits(54408) == "54408" && Money.Digits(544089) == "544089";
  }

  lemma DateOf827()
    ensures Calendar.DateAfter(827) == Calendar.Date(94, 4, 7)
  {
    hide Calendar.DateAfter;
    Calendar.DateAfterJulian(827);
    Calendar.JulianFromYear(92, 94, 97);
    assert Calendar.DaysBetween(92, 94) == 731 by { assert Calendar.DaysBetween(92, 93) == 366; }
    Calendar.ToJulianInjective(Calendar.DateAfter(827), Calendar.Date(94, 4, 7));
  }

  /**
   * Row 1180509 of the orders, from the declared seeds: order 4722021 of customer 128120, of 7 April 1994, over 323
   * pieces for 544089.09.
   */
  lemma Order4722021(cfg: OrderConfig)
    requires ScaleOne(cfg)
    ensures cfg.Total(ORDER_LINE) == 1500000 == |Serial(cfg, ORDER_LINE, INITIAL_VALUES)|
    ensures var out := Serial(cfg, ORDER_LINE, INITIAL_VALUES)[1180508];
            out.Whole? && out.row.OrderMade? && out.row.o.okey == 4722021 && out.row.o.custkey == 128120 &&
            out.row.o.odate == 827 && Calendar.DateAfter(827) == Calendar.Date(94, 4, 7) &&
            Money.MoneyText(out.row.o.totalprice) == "544089.09" && Quantity(out.row.ls) == 323
  {
    hide Serial, Draw, Lines, TotalCharge, Quantity, ShippedBefore, Money.MoneyText, Calendar.DateAfter, PickDraw;
    hide TextDraw;
    RowAlone(cfg, ORDER_LINE, INITIAL_VALUES, 1180508);
    OrderHead();
    OrderTotal(cfg);
    TextOf54408909();
    DateOf827();
  }

  // ----- the first customer of answers/q10.out -----

  lemma Power57039()
    ensures Iter(57039, 1) == 1465524297
    ensures Iter(114078, 1) == 285415466
    ensures Iter(171117, 1) == 222771422
    ensures Iter(342234, 1) == 623280050
    ensures Iter(513351, 1) == 462045488
  {
    hide Iter;
    Period.FirstPower();
    Period.Times(1, 16807, 1, 16807); Period.Times(2, 282475249, 1, 16807); Period.Times(3, 1622650073, 3, 1622650073);
    Period.Times(6, 470211272, 6, 470211272); Period.Times(12, 1115438165, 1, 16807);
    Period.Times(13, 1784484492, 13, 1784484492); Period.Times(26, 1131570933, 1, 16807);
    Period.Times(27, 197493099, 27, 197493099); Period.Times(54, 590357944, 1, 16807);
    Period.Times(55, 771515668, 55, 771515668); Period.Times(110, 1070477904, 1, 16807);
    Period.Times(111, 2051621609, 111, 2051621609); Period.Times(222, 1127401868, 222, 1127401868);
    Period.Times(444, 1151624117, 1, 16807); Period.Times(445, 76424008, 445, 76424008);
    Period.Times(890, 1759921226, 1, 16807); Period.Times(891, 1703775251, 891, 1703775251);
    Period.Times(1782, 1747240702, 1782, 1747240702); Period.Times(3564, 1188671986, 3564, 1188671986);
    Period.Times(7128, 657200547, 1, 16807); Period.Times(7129, 1061196908, 7129, 1061196908);
    Period.Times(14258, 1397669951, 1, 16807); Period.Times(14259, 1462735571, 14259, 1462735571);
    Period.Times(28518, 1662129966, 1, 16807); Period.Times(28519, 951058386, 28519, 951058386);
    Period.Times(57038, 970652187, 1, 16807); Period.Times(57039, 1465524297, 57039, 1465524297);
    Period.Times(114078, 285415466, 57039, 1465524297); Period.Times(171117, 222771422, 171117, 222771422);
    Period.Times(342234, 623280050, 171117, 222771422);
  }

  function CustomerStart(): Streams { Skipped(CUST, 57039, INITIAL_VALUES) }

  lemma CustomerDrawn()
    ensures Draw(CustomerStart(), C_NTRG_SD, 1, 0, 24) == 12
    ensures Draw(CustomerStart(), C_ABAL_SD, 1, -99999, 999999) == 63287
    ensures Draw(CustomerStart(), C_ADDR_SD, 1, 10, 40) == 10
  {
    hide Iter, Draw, NextRand;
    Power57039();
    var v := CustomerStart();
    StartsAt(CUST, 57039, C_NTRG_SD, 57039, 1465524297, 1991535292);
    Next(v, C_NTRG_SD, 0, 1991535292, 1053530502, 0, 24, 12);
    StartsAt(CUST, 57039, C_ABAL_SD, 57039, 1465524297, 955634496);
    Next(v, C_ABAL_SD, 0, 955634496, 318778359, -99999, 999999, 63287);
    StartsAt(CUST, 57039, C_ADDR_SD, 513351, 462045488, 325822939);
    Next(v, C_ADDR_SD, 0, 325822939, 22835923, 10, 40, 10);
  }

  lemma CustomerPhone()
    ensures Draw(CustomerStart(), C_PHNE_SD, 1, 100, 999) == 895 &&
            Draw(CustomerStart(), C_PHNE_SD, 2, 100, 999) == 641 &&
            Draw(CustomerStart(), C_PHNE_SD, 3, 1000, 9999) == 3466
  {
    hide Iter, Draw, NextRand;
    Power57039();
    var v := CustomerStart();
    StartsAt(CUST, 57039, C_PHNE_SD, 171117, 222771422, 1180098136);
    Next(v, C_PHNE_SD, 0, 1180098136, 1897891707, 100, 999, 895);
    Next(v, C_PHNE_SD, 1, 1897891707, 1291310658, 100, 999, 641);
    Next(v, C_PHNE_SD, 2, 1291310658, 588492424, 1000, 9999, 3466);
  }

  lemma CustomerText()
    ensures Draw(CustomerStart(), C_CMNT_SD, 1, 0, 314572684) == 193594971 &&
            Draw(CustomerStart(), C_CMNT_SD, 2, 29, 116) == 64
  {
    hide Iter, Draw, NextRand;
    Power57039();
    var v := CustomerStart();
    StartsAt(CUST, 57039, C_CMNT_SD, 114078, 285415466, 323089205);
    Next(v, C_CMNT_SD, 0, 323089205, 1321608819, 0, 314572684, 193594971);
    Next(v, C_CMNT_SD, 1, 1321608819, 856060012, 29, 116, 64);
  }

  lemma TextOf63287()
    ensures Money.MoneyText(63287) == "632.87"
  {
    assert Money.Digits(6) == "6" && Money.Digits(63) == "63";
  }

  /**
   * Customer 57040: from nation 12, which is Japan, with the phone 22-895-641-3466, a balance of 632.87, an address of
   * 10 characters and a comment of 64.
   */
  lemma Customer57040(cfg: Config)
    requires ScaleOne(cfg)
    ensures cfg.Total(CUST) == 150000 == |Serial(cfg, CUST, INITIAL_VALUES)|
    ensures var out := Serial(cfg, CUST, INITIAL_VALUES)[57039];
            out.Whole? && out.row.CustomerMade? && var c := out.row.c;
            c.custkey == 57040 && c.nation == 12 && c.phone == Phone(22, 895, 641, 3466) &&
            Money.MoneyText(c.acctbal) == "632.87" && c.alen == 10 && c.comment.length == 64
  {
    hide Serial, Draw, RawDraws, Money.MoneyText, PickDraw;
    RowAlone(cfg, CUST, INITIAL_VALUES, 57039);
    CustomerDrawn();
    CustomerPhone();
    CustomerText();
    TextOf63287();
  }

  // ----- the first line of answers/q2.out -----

  lemma Power5358()
    ensures Iter(5358, 1) == 684110002
    ensures Iter(10716, 1) == 2051710622
    ensures Iter(16074, 1) == 1511526315
    ensures Iter(32148, 1) == 1819236039
    ensures Iter(48222, 1) == 1500465943
  {
    hide Iter;
    Period.FirstPower();
    Period.Times(1, 16807, 1, 16807); Period.Times(2, 282475249, 2, 282475249); Period.Times(4, 984943658, 1, 16807);
    Period.Times(5, 1144108930, 5, 1144108930); Period.Times(10, 2007237709, 10, 2007237709);
    Period.Times(20, 143542612, 20, 143542612); Period.Times(40, 784558821, 1, 16807);
    Period.Times(41, 530511967, 41, 530511967); Period.Times(82, 269220094, 1, 16807);
    Period.Times(83, 34075629, 83, 34075629); Period.Times(166, 1936329094, 1, 16807);
    Period.Times(167, 915896220, 167, 915896220); Period.Times(334, 959637304, 334, 959637304);
    Period.Times(668, 742753900, 1, 16807); Period.Times(669, 142357289, 669, 142357289);
    Period.Times(1338, 713120633, 1, 16807); Period.Times(1339, 312244924, 1339, 312244924);
    Period.Times(2678, 1118600160, 1, 16807); Period.Times(2679, 1241043282, 2679, 1241043282);
    Period.Times(5358, 684110002, 5358, 684110002); Period.Times(10716, 2051710622, 5358, 684110002);
    Period.Times(16074, 1511526315, 16074, 1511526315); Period.Times(32148, 1819236039, 16074, 1511526315);
  }

  function SupplierStart(): Streams { Skipped(SUPP, 5358, INITIAL_VALUES) }

  lemma SupplierDrawn()
    ensures Draw(SupplierStart(), S_NTRG_SD, 1, 0, 24) == 23
    ensures Draw(SupplierStart(), S_ABAL_SD, 1, -99999, 999999) == 993853
    ensures Draw(SupplierStart(), S_ADDR_SD, 1, 10, 40) == 24
  {
    hide Iter, Draw, NextRand;
    Power5358();
    var v := SupplierStart();
    StartsAt(SUPP, 5358, S_NTRG_SD, 5358, 684110002, 2052670119);
    Next(v, S_NTRG_SD, 0, 2052670119, 2049384625, 0, 24, 23);
    StartsAt(SUPP, 5358, S_ABAL_SD, 5358, 684110002, 1530338528);
    Next(v, S_ABAL_SD, 0, 1530338528, 2135483624, -99999, 999999, 993853);
    StartsAt(SUPP, 5358, S_ADDR_SD, 48222, 1500465943, 458127975);
    Next(v, S_ADDR_SD, 0, 458127975, 1028001330, 10, 40, 24);
  }

  lemma SupplierPhone()
    ensures Draw(SupplierStart(), S_PHNE_SD, 1, 100, 999) == 429 &&
            Draw(SupplierStart(), S_PHNE_SD, 2, 100, 999) == 790 &&
            Draw(SupplierStart(), S_PHNE_SD, 3, 1000, 9999) == 6131
  {
    hide Iter, Draw, NextRand;
    Power5358();
    var v := SupplierStart();
    StartsAt(SUPP, 5358, S_PHNE_SD, 16074, 1511526315, 1885467722);
    Next(v, S_PHNE_SD, 0, 1885467722, 787308522, 100, 999, 429);
    Next(v, S_PHNE_SD, 1, 787308522, 1647580087, 100, 999, 790);
    Next(v, S_PHNE_SD, 2, 1647580087, 1224377791, 1000, 9999, 6131);
  }

  lemma SupplierText()
    ensures Draw(SupplierStart(), S_CMNT_SD, 1, 0, 314572700) == 226174478 &&
            Draw(SupplierStart(), S_CMNT_SD, 2, 25, 100) == 29
    ensures Draw(SupplierStart(), BBB_CMNT_SD, 1, 1, 10000) == 7364
  {
    hide Iter, Draw, NextRand;
    Power5358();
    var v := SupplierStart();
    StartsAt(SUPP, 5358, S_CMNT_SD, 10716, 2051710622, 2019930119);
    Next(v, S_CMNT_SD, 0, 2019930119, 1544018257, 0, 314572700, 226174478);
    Next(v, S_CMNT_SD, 1, 1544018257, 122455051, 25, 100, 29);
    StartsAt(SUPP, 5358, BBB_CMNT_SD, 5358, 684110002, 432606268);
    Next(v, BBB_CMNT_SD, 0, 432606268, 1581401181, 1, 10000, 7364);
  }

  lemma TextOf993853()
    ensures Money.MoneyText(993853) == "9938.53"
  {
    assert Money.Digits(9) == "9" && Money.Digits(99) == "99" && Money.Digits(993) == "993";
  }

  /**
   * Supplier 5359: from nation 23, which is the United Kingdom, with the phone 33-429-790-6131, a balance of 9938.53,
   * an address of 24 characters and a comment of 29 without a complaint.
   */
  lemma Supplier5359(cfg: Config)
    requires ScaleOne(cfg)
    ensures cfg.Total(SUPP) == 10000 == |Serial(cfg, SUPP, INITIAL_VALUES)|
    ensures var out := Serial(cfg, SUPP, INITIAL_VALUES)[5358];
            out.Whole? && out.row.SupplierMade? && var s := out.row.s;
            s.suppkey == 5359 && s.nation == 23 && s.phone == Phone(33, 429, 790, 6131) &&
            Money.MoneyText(s.acctbal) == "9938.53" && s.alen == 24 && s.comment.length == 29 && s.press.None?
  {
    hide Serial, Draw, RawDraws, Money.MoneyText, PickDraw;
    RowAlone(cfg, SUPP, INITIAL_VALUES, 5358);
    SupplierDrawn();
    SupplierPhone();
    SupplierText();
    TextOf993853();
  }

  lemma Power185357()
    ensures Iter(185357, 1) == 839817181
  {
    hide Iter;
    Period.FirstPower();
    Period.Times(1, 16807, 1, 16807); Period.Times(2, 282475249, 2, 282475249); Period.Times(4, 984943658, 1, 16807);
    Period.Times(5, 1144108930, 5, 1144108930); Period.Times(10, 2007237709, 1, 16807);
    Period.Times(11, 823564440, 11, 823564440); Period.Times(22, 1474833169, 22, 1474833169);
    Period.Times(44, 1617819336, 1, 16807); Period.Times(45, 1399125485, 45, 1399125485);
    Period.Times(90, 1908194298, 90, 1908194298); Period.Times(180, 977764947, 1, 16807);
    Period.Times(181, 750597385, 181, 750597385); Period.Times(362, 32106102, 362, 32106102);
    Period.Times(724, 1045139816, 724, 1045139816); Period.Times(1448, 64510906, 1448, 64510906);
    Period.Times(2896, 1188779302, 2896, 1188779302); Period.Times(5792, 982490779, 5792, 982490779);
    Period.Times(11584, 1782086330, 11584, 1782086330); Period.Times(23168, 1281061716, 1, 16807);
    Period.Times(23169, 133215990, 23169, 133215990); Period.Times(46338, 75549974, 1, 16807);
    Period.Times(46339, 605577641, 46339, 605577641); Period.Times(92678, 119487781, 92678, 119487781);
    Period.Times(185356, 1677072808, 1, 16807);
  }

  function PartStart(): Streams { Skipped(PART_PSUPP, 185357, INITIAL_VALUES) }

  lemma PartDrawn()
    ensures Draw(PartStart(), P_MFG_SD, 1, 1, 5) == 4
    ensures Draw(PartStart(), P_SIZE_SD, 1, 1, 50) == 15
  {
    hide Iter, Draw, NextRand;
    Power185357();
    var v := PartStart();
    StartsAt(PART_PSUPP, 185357, P_MFG_SD, 185357, 839817181, 839817181);
    Next(v, P_MFG_SD, 0, 839817181, 1544832983, 1, 5, 4);
    StartsAt(PART_PSUPP, 185357, P_SIZE_SD, 185357, 839817181, 402267915);
    Next(v, P_SIZE_SD, 0, 402267915, 638326649, 1, 50, 15);
  }

  /** Part 185358: by manufacturer 4, of size 15, and sold by supplier 5359. */
  lemma Part185358(cfg: Config)
    requires ScaleOne(cfg)
    ensures cfg.Total(PART_PSUPP) == 200000 == |Serial(cfg, PART_PSUPP, INITIAL_VALUES)|
    ensures var out := Serial(cfg, PART_PSUPP, INITIAL_VALUES)[185357];
            out.Whole? && out.row.PartMade? && out.row.p.partkey == 185358 && out.row.p.mfgr == 4 &&
            out.row.p.size == 15 && |out.row.ps| == 4 && out.row.ps[0].partkey == 185358 &&
            out.row.ps[0].suppkey == 5359
  {
    hide Serial, Draw, NameDraw, PickDraw, TextDraw, PartSuppRows;
    RowAlone(cfg, PART_PSUPP, INITIAL_VALUES, 185357);
    PartDrawn();
    Columns.PartSuppAt(cfg, 185358, PartStart(), 4, 0);
  }

  // ----- the first part -----

  lemma FirstDraws()
    ensures Draw(INITIAL_VALUES, P_MFG_SD, 1, 1, 5) == 1
    ensures Draw(INITIAL_VALUES, P_BRND_SD, 1, 1, 5) == 3
    ensures Draw(INITIAL_VALUES, P_SIZE_SD, 1, 1, 50) == 7
  {
    hide Iter, Draw, NextRand;
    var v := INITIAL_VALUES;
    NoDraw(v[P_MFG_SD]);
    Next(v, P_MFG_SD, 0, 1, 16807, 1, 5, 1);
    NoDraw(v[P_BRND_SD]);
    Next(v, P_BRND_SD, 0, 46831694, 1121266256, 1, 5, 3);
    NoDraw(v[P_SIZE_SD]);
    Next(v, P_SIZE_SD, 0, 1193163244, 292346222, 1, 50, 7);
  }

  lemma FirstName()
    ensures NameDraw(INITIAL_VALUES) == [32, 41, 82, 15, 40]
  {
    hide Iter, Draw, NextRand;
    var v := INITIAL_VALUES;
    NoDraw(v[P_NAME_SD]);
    Next(v, P_NAME_SD, 0, 709314158, 761329009, 0, 91, 32);
    Next(v, P_NAME_SD, 1, 761329009, 949085437, 1, 91, 41);
    Next(v, P_NAME_SD, 2, 949085437, 1917893390, 2, 91, 82);
    Next(v, P_NAME_SD, 3, 1917893390, 304664260, 3, 91, 15);
    Next(v, P_NAME_SD, 4, 304664260, 891203372, 4, 91, 40);
    Columns.NameColumns(v, 0);
    Columns.NameColumns(v, 1);
    Columns.NameColumns(v, 2);
    Columns.NameColumns(v, 3);
    Columns.NameColumns(v, 4);
    hide NameDraw;
  }

  lemma NoDraw(v: Live)
    ensures Iter(0, v) == v
  {}

  /**
   * Part 1: by manufacturer 1, of brand 13 and size 7, for 901.00, and named after the colours 32, 41, 82, 15 and 40,
   * which are goldenrod, lavender, spring, chocolate and lace.
   */
  lemma FirstPart(cfg: Config)
    requires ScaleOne(cfg)
    ensures |Serial(cfg, PART, INITIAL_VALUES)| == 200000
    ensures var out := Serial(cfg, PART, INITIAL_VALUES)[0];
            out.PartOnly? && out.p.partkey == 1 && out.p.mfgr == 1 && out.p.brand == 13 && out.p.size == 7 &&
            out.p.retailprice == 90100 && out.p.name == [32, 41, 82, 15, 40]
  {
    hide Rows, Draw, NameDraw, PickDraw, TextDraw, PartSuppRows;
    RowsSplit(cfg, PART, 1, 1, 199999, 0, INITIAL_VALUES);
    OneRow(cfg, PART, 1, INITIAL_VALUES);
    FirstDraws();
    FirstName();
  }
}
