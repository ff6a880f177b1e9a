/**
 * One row of every table as a function of its index and of the values its streams hold when the row starts
 * (build.c), together with the number of draws the row takes from each stream.
 */
module Build {
  import opened Rnd
  import opened Tables
  import opened Wrappers
  import Calendar
  import Keys
  import Shuffle

  const TEXT_POOL_SIZE := 314572800

  const LARGE_SCALE := 30000

  /** Cumulative weights of a distribution. */
  type Weights = w: seq<int> | |w| > 0 && w[|w| - 1] >= 1 witness [1]

  /** What a run is configured with: the scale, the base row counts, and the distributions. */
  datatype Settings = Settings(scale: int, partBase: int, suppBase: int, custBase: int, orderBase: int,
                               nations: int, regions: int,
                               pTypes: Weights, pContainers: Weights, cSegments: Weights, oPriorities: Weights,
                               lInstructions: Weights, lModes: Weights, lFlags: Weights)
  {
    predicate Valid()
    {
      1 <= scale && 1 <= partBase && 1 <= suppBase && 1 <= custBase && 1 <= orderBase &&
      1 <= nations && 1 <= regions
    }

    /** Scales from 30000 on draw two columns of orders from another generator. */
    predicate Small()
    {
      scale < LARGE_SCALE
    }

    /** Whether the rows of table t are those given here. */
    predicate Covers(t: int)
    {
      MakesOrders(t) ==> Small()
    }

    function Base(t: int): int
    {
      if t == PART || t == PSUPP || t == PART_PSUPP then partBase
      else if t == SUPP then suppBase
      else if t == CUST then custBase
      else if t == NATION then nations
      else if t == REGION then regions
      else orderBase
    }

    /** Rows of a chunked table at this scale. */
    function Total(t: int): int
    {
      Base(t) * scale
    }

    lemma TotalPositive(t: int)
      requires Valid()
      ensures Total(t) >= 1
    {
      assert Base(t) * scale >= 1 * scale by { assert (Base(t) - 1) * scale >= 0; }
    }
  }

  type Config = c: Settings | c.Valid()
    witness Settings(1, 1, 1, 1, 1, 1, 1, [1], [1], [1], [1], [1], [1], [1])

  /** Configurations whose orders draw from 31-bit streams alone. */
  type OrderConfig = c: Config | c.Small()
    witness Settings(1, 1, 1, 1, 1, 1, 1, [1], [1], [1], [1], [1], [1], [1])

  /** The k-th draw of stream s in a row, from [lo, hi]. */
  function Draw(v: Streams, s: int, k: nat, lo: int, hi: int): int
    requires IsStream(s)
  {
    UnifInt(lo, hi, Iter(k, v[s]))
  }

  lemma DrawRange(v: Streams, s: int, k: nat, lo: int, hi: int)
    requires IsStream(s) && lo <= hi
    ensures lo <= Draw(v, s, k, lo, hi) <= hi
  {
    UnifIntRange(lo, hi, Iter(k, v[s]));
  }

  /** The first member whose cumulative weight reaches j. */
  function Pick(w: Weights, j: int, i: nat): (r: nat)
    requires i < |w| && j <= w[|w| - 1]
    ensures i <= r < |w| && w[r] >= j && forall k :: i <= k < r ==> w[k] < j
    decreases |w| - i
  {
    if w[i] < j then Pick(w, j, i + 1) else i
  }

  /** The member picked by the k-th draw of stream s. */
  function PickDraw(v: Streams, s: int, k: nat, w: Weights): nat
    requires IsStream(s)
  {
    var top := w[|w| - 1];
    UnifIntRange(1, top, Iter(k, v[s]));
    Pick(w, Draw(v, s, k, 1, top), 0)
  }

  /** A stretch of the text pool. */
  datatype Text = Text(offset: int, length: int)

  /** Comment text takes two draws: where in the pool, and how long. */
  function TextDraw(v: Streams, s: int, k: nat, min: int, max: int): Text
    requires IsStream(s)
  {
    Text(Draw(v, s, k, 0, TEXT_POOL_SIZE - max), Draw(v, s, k + 1, min, max))
  }

  /** Draws that fill n characters, five to a draw. */
  function CharDraws(n: int): nat
  {
    if n <= 0 then 0 else (n + 4) / 5
  }

  lemma CharDrawsStep(i: nat)
    ensures CharDraws(i + 1) == CharDraws(i) + (if i % 5 == 0 then 1 else 0)
  {}

  /** The stream values after draws k, ..., k + n - 1, from which the characters are cut. */
  function RawDraws(v: Live, k: nat, n: nat): seq<Live>
  {
    if n == 0 then [] else RawDraws(v, k, n - 1) + [Iter(k + n - 1, v)]
  }

  // ----- customer -----

  datatype Phone = Phone(country: int, area: int, exchange: int, number: int)

  function PhoneDraw(v: Streams, s: int, nation: int): Phone
    requires IsStream(s)
  {
    Phone(10 + nation % 90, Draw(v, s, 1, 100, 999), Draw(v, s, 2, 100, 999), Draw(v, s, 3, 1000, 9999))
  }

  datatype Customer = Customer(custkey: int, address: seq<Live>, alen: int, nation: int, phone: Phone, acctbal: int,
                               mktsegment: nat, comment: Text)

  function CustomerRow(cfg: Config, index: int, v: Streams): Customer
  {
    var alen := Draw(v, C_ADDR_SD, 1, 10, 40);
    var nation := Draw(v, C_NTRG_SD, 1, 0, cfg.nations - 1);
    Customer(index, RawDraws(v[C_ADDR_SD], 2, CharDraws(alen)), alen, nation, PhoneDraw(v, C_PHNE_SD, nation),
             Draw(v, C_ABAL_SD, 1, -99999, 999999), PickDraw(v, C_MSEG_SD, 1, cfg.cSegments),
             TextDraw(v, C_CMNT_SD, 1, 29, 116))
  }

  function CustomerDraws(v: Streams, s: int): nat
  {
    if s == C_ADDR_SD then 1 + CharDraws(Draw(v, C_ADDR_SD, 1, 10, 40))
    else if s == C_PHNE_SD then 3
    else if s == C_CMNT_SD then 2
    else if s == C_NTRG_SD || s == C_ABAL_SD || s == C_MSEG_SD then 1
    else 0
  }

  // ----- supplier -----

  /** The complaint or recommendation woven into a supplier's comment. */
  datatype BadPress = BadPress(complaint: bool, offset: int, noise: int)

  datatype Supplier = Supplier(suppkey: int, address: seq<Live>, alen: int, nation: int, phone: Phone, acctbal: int,
                               comment: Text, press: Option<BadPress>)

  function PressDraw(v: Streams, clen: int): Option<BadPress>
  {
    var noise := Draw(v, BBB_JNK_SD, 1, 0, clen - 19);
    var offset := Draw(v, BBB_OFFSET_SD, 1, 0, clen - (19 + noise));
    if Draw(v, BBB_CMNT_SD, 1, 1, 10000) <= 10
    then Some(BadPress(Draw(v, BBB_TYPE_SD, 1, 0, 100) < 50, offset, noise)) else None
  }

  function SupplierRow(cfg: Config, index: int, v: Streams): Supplier
  {
    var alen := Draw(v, S_ADDR_SD, 1, 10, 40);
    var nation := Draw(v, S_NTRG_SD, 1, 0, cfg.nations - 1);
    var comment := TextDraw(v, S_CMNT_SD, 1, 25, 100);
    Supplier(index, RawDraws(v[S_ADDR_SD], 2, CharDraws(alen)), alen, nation, PhoneDraw(v, S_PHNE_SD, nation),
             Draw(v, S_ABAL_SD, 1, -99999, 999999), comment, PressDraw(v, comment.length))
  }

  function SupplierDraws(v: Streams, s: int): nat
  {
    if s == S_ADDR_SD then 1 + CharDraws(Draw(v, S_ADDR_SD, 1, 10, 40))
    else if s == S_PHNE_SD then 3
    else if s == S_CMNT_SD then 2
    else if s == S_NTRG_SD || s == S_ABAL_SD || BBB_JNK_SD <= s <= BBB_OFFSET_SD then 1
    else 0
  }

  // ----- part and partsupp -----

  datatype PartSupp = PartSupp(partkey: int, suppkey: int, qty: int, scost: int, comment: Text)

  datatype Part = Part(partkey: int, name: seq<int>, mfgr: int, brand: int, ptype: nat, size: int, container: nat,
                       retailprice: int, comment: Text)

  /** The first n draws of a shuffle of c elements, from draw k on: the i-th comes from [i, c - 1]. */
  function ShuffleDraws(v: Streams, s: int, k: nat, c: nat, n: nat): (js: seq<int>)
    requires IsStream(s) && n <= c
    ensures |js| == n && Shuffle.IsDraws(js, c)
  {
    if n == 0 then [] else
      UnifIntRange(n - 1, c - 1, Iter(k + n - 1, v[s]));
      ShuffleDraws(v, s, k, c, n - 1) + [Draw(v, s, k + n - 1, n - 1, c - 1)]
  }

  /** a after n turns of the shuffle loop. */
  function Shuffled(v: Streams, s: int, k: nat, a: seq<int>, n: nat): (b: seq<int>)
    requires IsStream(s) && n <= |a|
    ensures |b| == |a|
  {
    if n == 0 then a else
      UnifIntRange(n - 1, |a| - 1, Iter(k + n - 1, v[s]));
      Shuffle.Swap(Shuffled(v, s, k, a, n - 1), n - 1, Draw(v, s, k + n - 1, n - 1, |a| - 1))
  }

  lemma {:induction false} ShuffledIsPermuted(v: Streams, s: int, k: nat, a: seq<int>, n: nat)
    requires IsStream(s) && n <= |a|
    ensures Shuffled(v, s, k, a, n) == Shuffle.Permuted(a, ShuffleDraws(v, s, k, |a|, n))
  {
    if n > 0 {
      ShuffledIsPermuted(v, s, k, a, n - 1);
      var js := ShuffleDraws(v, s, k, |a|, n);
      assert js[..n - 1] == ShuffleDraws(v, s, k, |a|, n - 1);
    }
  }

  function PartSuppRow(cfg: Config, index: int, v: Streams, k: nat): PartSupp
  {
    cfg.TotalPositive(SUPP);
    PartSupp(index, Keys.Bridge(cfg.Total(SUPP), index, k), Draw(v, PS_QTY_SD, k + 1, 1, 9999),
             Draw(v, PS_SCST_SD, k + 1, 100, 100000), TextDraw(v, PS_CMNT_SD, 2 * k + 1, 49, 198))
  }

  function PartSuppRows(cfg: Config, index: int, v: Streams, n: nat): seq<PartSupp>
  {
    if n == 0 then [] else PartSuppRows(cfg, index, v, n - 1) + [PartSuppRow(cfg, index, v, n - 1)]
  }

  /** Five distinct colours: the first five of a full shuffle. */
  function NameDraw(v: Streams): seq<int>
  {
    Shuffle.Permuted(Shuffle.Identity(COLORS), ShuffleDraws(v, P_NAME_SD, 1, COLORS, COLORS))[..5]
  }

  function PartRow(cfg: Config, index: int, v: Streams): Part
  {
    var mfgr := Draw(v, P_MFG_SD, 1, 1, 5);
    Part(index, NameDraw(v), mfgr,
         mfgr * 10 + Draw(v, P_BRND_SD, 1, 1, 5), PickDraw(v, P_TYPE_SD, 1, cfg.pTypes),
         Draw(v, P_SIZE_SD, 1, 1, 50), PickDraw(v, P_CNTR_SD, 1, cfg.pContainers), Keys.RetailPrice(index),
         TextDraw(v, P_CMNT_SD, 1, 5, 22))
  }

  /** Draws of the part itself and of its first k suppliers. */
  function PartDraws(k: nat, s: int): nat
  {
    if P_MFG_SD <= s <= P_CNTR_SD then 1
    else if s == P_CMNT_SD then 2
    else if s == P_NAME_SD then COLORS
    else if s == PS_QTY_SD || s == PS_SCST_SD then k
    else if s == PS_CMNT_SD then 2 * k
    else 0
  }

  // ----- order and lineitem -----

  datatype Line = Line(okey: int, lcnt: int, quantity: int, discount: int, tax: int, shipinstruct: nat, shipmode: nat,
                       comment: Text, partkey: int, suppkey: int, eprice: int, sdate: int, cdate: int, rdate: int,
                       rflag: Option<nat>, shipped: bool)

  datatype Status = Open | Partial | Filled

  datatype Order = Order(okey: int, custkey: int, status: Status, totalprice: int, odate: int, priority: nat,
                         clerk: int, comment: Text)

  const O_ODATE_MIN := Calendar.STARTDATE
  const O_ODATE_MAX := Calendar.STARTDATE + Calendar.TOTDATE - (121 + 30) - 1

  function OrderDate(v: Streams): int
  {
    Draw(v, O_ODATE_SD, 1, O_ODATE_MIN, O_ODATE_MAX)
  }

  function LineCount(v: Streams): nat
  {
    UnifIntRange(1, O_LCNT_MAX, Iter(1, v[O_LCNT_SD]));
    Draw(v, O_LCNT_SD, 1, 1, O_LCNT_MAX)
  }

  function ShipDate(v: Streams, k: nat): int
  {
    OrderDate(v) + Draw(v, L_SDTE_SD, k + 1, 1, 121)
  }

  function CommitDate(v: Streams, k: nat): int
  {
    OrderDate(v) + Draw(v, L_CDTE_SD, k + 1, 30, 90)
  }

  function ReceiptDate(v: Streams, k: nat): int
  {
    ShipDate(v, k) + Draw(v, L_RDTE_SD, k + 1, 1, 30)
  }

  /** Whether line k is back by the current date, and so draws a return flag. */
  predicate Returned(v: Streams, k: nat)
  {
    Calendar.Julian(ReceiptDate(v, k)) <= Calendar.CURRENTDATE
  }

  predicate Shipped(v: Streams, k: nat)
  {
    Calendar.Julian(ShipDate(v, k)) <= Calendar.CURRENTDATE
  }

  function ReturnedBefore(v: Streams, k: nat): (n: nat)
    ensures n <= k
  {
    if k == 0 then 0 else ReturnedBefore(v, k - 1) + (if Returned(v, k - 1) then 1 else 0)
  }

  function ShippedBefore(v: Streams, k: nat): (n: nat)
    ensures n <= k
  {
    if k == 0 then 0 else ShippedBefore(v, k - 1) + (if Shipped(v, k - 1) then 1 else 0)
  }

  function LineRow(cfg: OrderConfig, okey: int, v: Streams, k: nat): Line
  {
    cfg.TotalPositive(SUPP);
    var quantity := Draw(v, L_QTY_SD, k + 1, 1, 50);
    var partkey := Draw(v, L_PKEY_SD, k + 1, 1, cfg.Total(PART));
    Line(okey, k + 1, quantity, Draw(v, L_DCNT_SD, k + 1, 0, 10), Draw(v, L_TAX_SD, k + 1, 0, 8),
         PickDraw(v, L_SHIP_SD, k + 1, cfg.lInstructions), PickDraw(v, L_SMODE_SD, k + 1, cfg.lModes),
         TextDraw(v, L_CMNT_SD, 2 * k + 1, 10, 43), partkey,
         Keys.Bridge(cfg.Total(SUPP), partkey, Draw(v, L_SKEY_SD, k + 1, 0, 3)), Keys.RetailPrice(partkey) * quantity,
         ShipDate(v, k) - Calendar.STARTDATE, CommitDate(v, k) - Calendar.STARTDATE,
         ReceiptDate(v, k) - Calendar.STARTDATE,
         if Returned(v, k) then Some(PickDraw(v, L_RFLG_SD, ReturnedBefore(v, k) + 1, cfg.lFlags)) else None,
         Shipped(v, k))
  }

  function Lines(cfg: OrderConfig, okey: int, v: Streams, n: nat): (ls: seq<Line>)
    ensures |ls| == n
  {
    if n == 0 then [] else Lines(cfg, okey, v, n - 1) + [LineRow(cfg, okey, v, n - 1)]
  }

  /** What a line adds to the order's total, in whole cents. */
  function Charge(l: Line): int
  {
    l.eprice * (100 - l.discount) / 100 * (100 + l.tax) / 100
  }

  function TotalCharge(cfg: OrderConfig, okey: int, v: Streams, n: nat): int
  {
    if n == 0 then 0 else TotalCharge(cfg, okey, v, n - 1) + Charge(LineRow(cfg, okey, v, n - 1))
  }

  /** The order key generation for update set `upd`: 0 for the population, 1 for the first thousand sets but one. */
  function Generation(upd: nat): nat
  {
    if upd == 0 then 0 else 1 + upd / 1000
  }

  /** Customers whose key is a multiple of three have no orders; the draw moves to a neighbour. */
  function Buyer(key: int, max: int): int
  {
    if key % 3 != 0 then key else if key + 1 <= max then key + 1 else max - 1
  }

  function OrderRow(cfg: OrderConfig, index: nat, upd: nat, v: Streams): Order
  {
    var okey := Keys.MkSparse(index, Generation(upd));
    var n := LineCount(v);
    var shipped := ShippedBefore(v, n);
    Order(okey, Buyer(Draw(v, O_CKEY_SD, 1, 1, cfg.Total(CUST)), cfg.Total(CUST)),
          if shipped == n then Filled else if shipped > 0 then Partial else Open,
          TotalCharge(cfg, okey, v, n), OrderDate(v) - Calendar.STARTDATE,
          PickDraw(v, O_PRIO_SD, 1, cfg.oPriorities), Draw(v, O_CLRK_SD, 1, 1, cfg.scale * 1000),
          TextDraw(v, O_CMNT_SD, 1, 19, 78))
  }

  /** Draws of an order and its first k lines. */
  function OrderDraws(v: Streams, k: nat, s: int): nat
  {
    if s == L_RFLG_SD then ReturnedBefore(v, k)
    else if s == L_CMNT_SD then 2 * k
    else if L_QTY_SD <= s <= L_RDTE_SD then k
    else if s == O_CMNT_SD then 2
    else if s == O_LCNT_SD || s == O_CKEY_SD || s == O_CLRK_SD || s == O_PRIO_SD || s == O_ODATE_SD then 1
    else 0
  }

  /** The first n counts of u are those of an order and its first k lines. */
  predicate Counts(u: seq<nat>, v: Streams, k: nat, n: nat)
    requires n <= |u|
  {
    n == 0 || (Counts(u, v, k, n - 1) && u[n - 1] == OrderDraws(v, k, n - 1))
  }

  lemma {:induction false} CountsAll(u: seq<nat>, v: Streams, k: nat, n: nat)
    requires n <= |u|
    ensures Counts(u, v, k, n) <==> forall s :: 0 <= s < n ==> u[s] == OrderDraws(v, k, s)
  {
    if n > 0 { CountsAll(u, v, k, n - 1); }
  }

  // ----- nation and region -----

  datatype Code = Code(code: int, comment: Text)

  function CodeRow(s: int, index: int, v: Streams): Code
    requires IsStream(s)
  {
    Code(index - 1, TextDraw(v, s, 1, 28, 115))
  }
}
