/** The generator's mutable state, the global Seed array, and the routines that draw from it (rnd.c, build.c). */
module Generator {
  import opened Rnd
  import opened Tables
  import opened Build
  import opened Runs
  import opened Wrappers
  import Calendar
  import InsertSegments
  import Keys
  import Parallel
  import Shuffle
  import SpeedSeed

  /** One entry of the Seed array. */
  datatype Seed = Seed(table: int, value: Live, usage: nat, boundary: nat)

  class Dbgen {
    const cfg: Config
    const seed: array<Seed>
    /** The stream values when the current row started. */
    ghost var start: Streams

    /** The draws taken from each stream since then. */
    ghost var used: seq<nat>

    /** The Seed array as it is declared. */
    constructor (cfg: Config)
      ensures this.cfg == cfg && Valid() && Values() == INITIAL_VALUES && fresh(seed)
    {
      this.cfg := cfg;
      seed := new Seed[STREAMS]((s: int) requires 0 <= s < STREAMS =>
        Seed(StreamTable(s), INITIAL_VALUES[s], 0, Boundary(s)));
      start := INITIAL_VALUES;
      used := seq(STREAMS, (s: nat) => 0);
      new;
      EntriesAll(STREAMS);
    }

    ghost predicate Valid()
      reads this, seed
    {
      seed.Length == STREAMS && |used| == STREAMS && Entries(STREAMS)
    }

    /** The first n entries keep their table and boundary, and count the draws. */
    ghost predicate Entries(n: nat)
      requires seed.Length == STREAMS && |used| == STREAMS && n <= STREAMS
      reads this, seed
    {
      n == 0 || (Entries(n - 1) && seed[n - 1].table == StreamTable(n - 1) &&
                 seed[n - 1].boundary == Boundary(n - 1) && seed[n - 1].usage == used[n - 1])
    }

    lemma {:induction false} EntriesAll(n: nat)
      requires seed.Length == STREAMS && |used| == STREAMS && n <= STREAMS
      ensures Entries(n) <==> forall s :: 0 <= s < n ==>
                seed[s].table == StreamTable(s) && seed[s].boundary == Boundary(s) && seed[s].usage == used[s]
    {
      if n > 0 { EntriesAll(n - 1); }
    }

    /** Within a row each stream has moved by exactly the draws counted for it. */
    ghost predicate InRow()
      reads this, seed
    {
      Valid() && Aligned(STREAMS)
    }

    ghost predicate Aligned(n: nat)
      requires seed.Length == STREAMS && |used| == STREAMS && n <= STREAMS
      reads this, seed
    {
      n == 0 || (Aligned(n - 1) && seed[n - 1].value == Iter(used[n - 1], start[n - 1]))
    }

    lemma {:induction false} AlignedAll(n: nat)
      requires seed.Length == STREAMS && |used| == STREAMS && n <= STREAMS
      ensures Aligned(n) <==> forall s :: 0 <= s < n ==> seed[s].value == Iter(used[s], start[s])
    {
      if n > 0 { AlignedAll(n - 1); }
    }

    method DssRandom(lower: int, upper: int, stream: int) returns (tgt: int)
      requires InRow() && IsStream(stream)
      modifies seed, `used
      ensures InRow()
      ensures used == old(used)[stream := old(used)[stream] + 1]
      ensures tgt == Draw(start, stream, used[stream], lower, upper)
    {
      EntriesAll(STREAMS);
      AlignedAll(STREAMS);
      var e := seed[stream];
      var v := NextRand(e.value);
      assert v == Iter(e.usage + 1, start[stream]);
      seed[stream] := e.(value := v, usage := e.usage + 1);
      used := used[stream := used[stream] + 1];
      EntriesAll(STREAMS);
      AlignedAll(STREAMS);
      tgt := UnifInt(lower, upper, v);
    }

    /** Fills a string of random length, five characters to a draw; the draws stand for the characters. */
    method ARnd(min: int, max: int, stream: int) returns (len: int, raws: seq<Live>)
      requires InRow() && IsStream(stream)
      modifies seed, `used
      ensures InRow()
      ensures len == Draw(start, stream, old(used)[stream] + 1, min, max)
      ensures raws == RawDraws(start[stream], old(used)[stream] + 2, CharDraws(len))
      ensures used == old(used)[stream := old(used)[stream] + 1 + CharDraws(len)]
    {
      len := DssRandom(min, max, stream);
      ghost var before := used;
      raws := [];
      var i := 0;
      while i < len
        invariant 0 <= i && (i <= len || i == 0)
        invariant InRow()
        invariant |raws| == CharDraws(i) && raws == RawDraws(start[stream], before[stream] + 1, |raws|)
        invariant used == before[stream := before[stream] + |raws|]
      {
        CharDrawsStep(i);
        if i % 5 == 0 {
          var _ := DssRandom(0, 0x7FFF_FFFF, stream);
          AlignedAll(STREAMS);
          raws := raws + [seed[stream].value];
        }
        i := i + 1;
      }
    }

    /** Picks a member of a distribution by scanning its cumulative weights. */
    method PickStr(w: Weights, stream: int) returns (i: nat)
      requires InRow() && IsStream(stream)
      modifies seed, `used
      ensures InRow()
      ensures used == old(used)[stream := old(used)[stream] + 1]
      ensures i == PickDraw(start, stream, used[stream], w)
    {
      var top := w[|w| - 1];
      var j := DssRandom(1, top, stream);
      UnifIntRange(1, top, seed[stream].value);
      i := 0;
      while w[i] < j
        invariant i < |w| && Pick(w, j, i) == Pick(w, j, 0)
        decreases |w| - i
      {
        i := i + 1;
      }
    }

    method DbgText(min: int, max: int, stream: int) returns (t: Text)
      requires InRow() && IsStream(stream)
      modifies seed, `used
      ensures InRow()
      ensures used == old(used)[stream := old(used)[stream] + 2]
      ensures t == TextDraw(start, stream, old(used)[stream] + 1, min, max)
    {
      var offset := DssRandom(0, TEXT_POOL_SIZE - max, stream);
      var length := DssRandom(min, max, stream);
      t := Text(offset, length);
    }

    method GenPhone(ind: int, stream: int) returns (p: Phone)
      requires InRow() && IsStream(stream) && used[stream] == 0
      modifies seed, `used
      ensures InRow()
      ensures used == old(used)[stream := 3]
      ensures p == PhoneDraw(start, stream, ind)
    {
      var acode := DssRandom(100, 999, stream);
      var exchg := DssRandom(100, 999, stream);
      var number := DssRandom(1000, 9999, stream);
      p := Phone(10 + ind % 90, acode, exchg, number);
    }

    /** No stream has been drawn from in this row. */
    ghost predicate Fresh()
      requires |used| == STREAMS
      reads `used
    {
      forall s :: IsStream(s) ==> used[s] == 0
    }

    method MkCust(index: int) returns (c: Customer)
      requires InRow() && Fresh()
      modifies seed, `used
      ensures InRow()
      ensures c == CustomerRow(cfg, index, start)
      ensures forall s :: IsStream(s) ==> used[s] == CustomerDraws(start, s)
    {
      var alen, address := ARnd(10, 40, C_ADDR_SD);
      var nation := DssRandom(0, cfg.nations - 1, C_NTRG_SD);
      var phone := GenPhone(nation, C_PHNE_SD);
      var acctbal := DssRandom(-99999, 999999, C_ABAL_SD);
      var mktsegment := PickStr(cfg.cSegments, C_MSEG_SD);
      var comment := DbgText(29, 116, C_CMNT_SD);
      c := Customer(index, address, alen, nation, phone, acctbal, mktsegment, comment);
    }

    /** The complaint or recommendation, drawn whether or not it is used. */
    method MkPress(clen: int) returns (press: Option<BadPress>)
      requires InRow() && forall s :: BBB_JNK_SD <= s <= BBB_OFFSET_SD ==> used[s] == 0
      modifies seed, `used
      ensures InRow() && press == PressDraw(start, clen)
      ensures forall s :: IsStream(s) ==> used[s] == if BBB_JNK_SD <= s <= BBB_OFFSET_SD then 1 else old(used)[s]
    {
      var badPress := DssRandom(1, 10000, BBB_CMNT_SD);
      var kind := DssRandom(0, 100, BBB_TYPE_SD);
      var noise := DssRandom(0, clen - 19, BBB_JNK_SD);
      var offset := DssRandom(0, clen - (19 + noise), BBB_OFFSET_SD);
      if badPress <= 10 {
        press := Some(BadPress(kind < 50, offset, noise));
      } else {
        press := None;
      }
    }

    method MkSupp(index: int) returns (s: Supplier)
      requires InRow() && Fresh()
      modifies seed, `used
      ensures InRow() && s == SupplierRow(cfg, index, start)
      ensures forall i :: IsStream(i) ==> used[i] == SupplierDraws(start, i)
    {
      var alen, address := ARnd(10, 40, S_ADDR_SD);
      var nation := DssRandom(0, cfg.nations - 1, S_NTRG_SD);
      var phone := GenPhone(nation, S_PHNE_SD);
      var acctbal := DssRandom(-99999, 999999, S_ABAL_SD);
      var comment := DbgText(25, 100, S_CMNT_SD);
      var press := MkPress(comment.length);
      s := Supplier(index, address, alen, nation, phone, acctbal, comment, press);
    }

    /** One turn of the shuffle: position i takes the element at a position drawn from i on. */
    method PermuteTurn(a: array<int>, i: nat, stream: int) returns (source: int)
      requires InRow() && IsStream(stream) && a as object != seed && i < a.Length
      modifies seed, `used, a
      ensures InRow() && used == old(used)[stream := old(used)[stream] + 1]
      ensures source == Draw(start, stream, used[stream], i, a.Length - 1) && i <= source < a.Length
      ensures a[..] == Shuffle.Swap(old(a[..]), i, source)
    {
      source := DssRandom(i, a.Length - 1, stream);
      UnifIntRange(i, a.Length - 1, Iter(used[stream], start[stream]));
      var temp := a[source];
      a[source] := a[i];
      a[i] := temp;
    }

    /** Shuffles a in place; position i is filled from the positions not filled yet. */
    method Permute(a: array<int>, stream: int)
      requires InRow() && IsStream(stream) && a as object != seed
      modifies seed, `used, a
      ensures InRow()
      ensures used == old(used)[stream := old(used)[stream] + a.Length]
      ensures a[..] == Shuffle.Permuted(old(a[..]),
                                        ShuffleDraws(start, stream, old(used)[stream] + 1, a.Length, a.Length))
    {
      hide Shuffle.Permuted, ShuffleDraws, Iter, UnifInt;
      ghost var k, before, was := used[stream] + 1, used, a[..];
      var i := 0;
      while i < a.Length
        invariant 0 <= i <= a.Length && InRow()
        invariant used == before[stream := before[stream] + i]
        invariant a[..] == Shuffled(start, stream, k, was, i)
      {
        var source := PermuteTurn(a, i, stream);
        i := i + 1;
      }
      ShuffledIsPermuted(start, stream, k, was, i);
    }

    /** A shuffle of the indices of a distribution with c members. */
    method PermuteDist(c: nat, stream: int) returns (a: array<int>)
      requires InRow() && IsStream(stream)
      modifies seed, `used
      ensures InRow() && fresh(a) && used == old(used)[stream := old(used)[stream] + c]
      ensures a[..] == Shuffle.Permuted(Shuffle.Identity(c), ShuffleDraws(start, stream, old(used)[stream] + 1, c, c))
    {
      hide Shuffle.Permuted, ShuffleDraws;
      a := new int[c];
      var i := 0;
      while i < c
        invariant 0 <= i <= c
        invariant forall k :: 0 <= k < i ==> a[k] == k
        modifies a
      {
        a[i] := i;
        i := i + 1;
      }
      assert a[..] == Shuffle.Identity(c);
      Permute(a, stream);
    }

    /** The name of a part: the first members of a shuffle of the colours. */
    method AggStr() returns (name: seq<int>)
      requires InRow() && used[P_NAME_SD] == 0
      modifies seed, `used
      ensures InRow() && name == NameDraw(start) && used == old(used)[P_NAME_SD := COLORS]
    {
      var permute := PermuteDist(COLORS, P_NAME_SD);
      name := permute[..5];
      assert name == permute[..][..5];
    }

    method MkPart(index: int) returns (p: Part, ps: seq<PartSupp>)
      requires InRow() && Fresh()
      modifies seed, `used
      ensures InRow() && p == PartRow(cfg, index, start) && ps == PartSuppRows(cfg, index, start, SUPP_PER_PART)
      ensures forall i :: IsStream(i) ==> used[i] == PartDraws(SUPP_PER_PART, i)
    {
      hide NextRand, UnifInt, Draw, PickDraw, TextDraw, NameDraw, PartSuppRows, Keys.RetailPrice;
      var name := AggStr();
      var temp := DssRandom(1, 5, P_MFG_SD);
      var brnd := DssRandom(1, 5, P_BRND_SD);
      var ptype := PickStr(cfg.pTypes, P_TYPE_SD);
      var size := DssRandom(1, 50, P_SIZE_SD);
      var container := PickStr(cfg.pContainers, P_CNTR_SD);
      var comment := DbgText(5, 22, P_CMNT_SD);
      p := Part(index, name, temp, temp * 10 + brnd, ptype, size, container, Keys.RetailPrice(index), comment);
      ps := MkPartSupps(index);
    }

    /** The part's suppliers: the loop at the end of mk_part. */
    method MkPartSupps(index: int) returns (ps: seq<PartSupp>)
      requires InRow() && forall i :: IsStream(i) ==> used[i] == PartDraws(0, i)
      modifies seed, `used
      ensures InRow() && ps == PartSuppRows(cfg, index, start, SUPP_PER_PART)
      ensures forall i :: IsStream(i) ==> used[i] == PartDraws(SUPP_PER_PART, i)
    {
      cfg.TotalPositive(SUPP);
      ps := [];
      var snum := 0;
      while snum < SUPP_PER_PART
        invariant 0 <= snum <= SUPP_PER_PART && InRow()
        invariant ps == PartSuppRows(cfg, index, start, snum)
        invariant forall i :: IsStream(i) ==> used[i] == PartDraws(snum, i)
      {
        var suppkey := Keys.Bridge(cfg.Total(SUPP), index, snum);
        var qty := DssRandom(1, 9999, PS_QTY_SD);
        var scost := DssRandom(100, 100000, PS_SCST_SD);
        var comment := DbgText(49, 198, PS_CMNT_SD);
        ps := ps + [PartSupp(index, suppkey, qty, scost, comment)];
        snum := snum + 1;
      }
    }

    /** Steps off a customer key that is a multiple of three, up first and then down. */
    static method LivingBuyer(drawn: int, max: int) returns (custkey: int)
      requires drawn <= max
      ensures custkey == Buyer(drawn, max)
      ensures custkey <= max && custkey % 3 != 0 && (1 <= drawn ==> 1 <= custkey)
    {
      custkey := drawn;
      var delta := 1;
      while custkey % 3 == 0
        invariant delta == 1 || delta == -1
        invariant if custkey % 3 == 0 then custkey == drawn && (delta == 1 || drawn == max)
                  else custkey == Buyer(drawn, max)
        invariant custkey <= max && (1 <= drawn ==> 1 <= custkey)
        decreases if custkey % 3 != 0 then 0 else if delta == 1 then 2 else 1
      {
        custkey := custkey + delta;
        custkey := if custkey < max then custkey else max;
        delta := -delta;
      }
    }

    method MkOrder(index: nat, upd: nat) returns (o: Order, ls: seq<Line>)
      requires InRow() && cfg.Small() && Fresh()
      modifies seed, `used
      ensures InRow() && o == OrderRow(cfg, index, upd, start)
      ensures ls == Lines(cfg, o.okey, start, LineCount(start))
      ensures Counts(used, start, LineCount(start), STREAMS)
    {
      hide NextRand, UnifInt, Iter, Calendar.Julian, PickDraw, TextDraw, Lines, TotalCharge, ShippedBefore;
      hide Buyer, Keys.MkSparse, Settings.Total;
      cfg.TotalPositive(CUST);
      var okey := Keys.MkSparse(index, Generation(upd));
      var custkey := DssRandom(1, cfg.Total(CUST), O_CKEY_SD);
      DrawRange(start, O_CKEY_SD, 1, 1, cfg.Total(CUST));
      custkey := LivingBuyer(custkey, cfg.Total(CUST));
      var date := DssRandom(O_ODATE_MIN, O_ODATE_MAX, O_ODATE_SD);
      var priority := PickStr(cfg.oPriorities, O_PRIO_SD);
      var clerk := DssRandom(1, if cfg.scale * 1000 > 1000 then cfg.scale * 1000 else 1000, O_CLRK_SD);
      var comment := DbgText(19, 78, O_CMNT_SD);
      var lines := DssRandom(1, O_LCNT_MAX, O_LCNT_SD);
      DrawRange(start, O_LCNT_SD, 1, 1, O_LCNT_MAX);
      CountsAll(used, start, 0, STREAMS);
      var shipped, totalprice;
      ls, totalprice, shipped := MkLines(okey, date, lines);
      var status := Open;
      if shipped > 0 {
        status := Partial;
      }
      if shipped == lines {
        status := Filled;
      }
      o := Order(okey, custkey, status, totalprice, date - Calendar.STARTDATE, priority, clerk, comment);
    }

    static method LineCharge(l: Line) returns (c: int)
      ensures c == Charge(l)
    {
      c := l.eprice * (100 - l.discount) / 100 * (100 + l.tax) / 100;
    }

    /** The lineitem loop of mk_order. */
    method MkLines(okey: nat, date: int, n: nat) returns (ls: seq<Line>, totalprice: int, shipped: nat)
      requires InRow() && cfg.Small() && Counts(used, start, 0, STREAMS)
      requires date == OrderDate(start)
      modifies seed, `used
      ensures InRow() && Counts(used, start, n, STREAMS)
      ensures ls == Lines(cfg, okey, start, n)
      ensures totalprice == TotalCharge(cfg, okey, start, n) && shipped == ShippedBefore(start, n)
    {
      hide LineRow, Charge, NextRand, UnifInt;
      ls, totalprice, shipped := [], 0, 0;
      var lcnt := 0;
      while lcnt < n
        invariant 0 <= lcnt <= n && InRow()
        invariant Counts(used, start, lcnt, STREAMS)
        invariant ls == Lines(cfg, okey, start, lcnt)
        invariant totalprice == TotalCharge(cfg, okey, start, lcnt) && shipped == ShippedBefore(start, lcnt)
      {
        var l := MkLine(okey, date, lcnt);
        ls := ls + [l];
        var charge := LineCharge(l);
        totalprice := totalprice + charge;
        if l.shipped {
          shipped := shipped + 1;
        }
        lcnt := lcnt + 1;
      }
    }

    method MkLine(okey: nat, date: int, lcnt: nat) returns (l: Line)
      requires InRow() && cfg.Small() && Counts(used, start, lcnt, STREAMS)
      requires date == OrderDate(start)
      modifies seed, `used
      ensures InRow() && Counts(used, start, lcnt + 1, STREAMS)
      ensures l == LineRow(cfg, okey, start, lcnt) && l.shipped == Shipped(start, lcnt)
    {
      hide NextRand, UnifInt, Keys.Bridge, Keys.RetailPrice, Settings.Total, Draw, PickDraw, TextDraw;
      CountsAll(used, start, lcnt, STREAMS);
      cfg.TotalPositive(SUPP);
      var quantity, discount, tax, shipinstruct, shipmode, comment, partkey, suppNum := MkLineItem(lcnt);
      var rprice := Keys.RetailPrice(partkey);
      var suppkey := Keys.Bridge(cfg.Total(SUPP), partkey, suppNum);
      var sdate, cdate, rdate, rflag, shipped := MkLineDates(date, lcnt);
      CountsAll(used, start, lcnt + 1, STREAMS);
      l := Line(okey, lcnt + 1, quantity, discount, tax, shipinstruct, shipmode, comment, partkey, suppkey,
                rprice * quantity,
                sdate - Calendar.STARTDATE, cdate - Calendar.STARTDATE, rdate - Calendar.STARTDATE, rflag, shipped);
    }

    /** What a line draws before its dates. */
    method MkLineItem(lcnt: nat)
      returns (quantity: int, discount: int, tax: int, shipinstruct: nat, shipmode: nat, comment: Text, partkey: int,
               suppNum: int)
      requires InRow() && used[L_CMNT_SD] == 2 * lcnt && forall s :: L_QTY_SD <= s <= L_SKEY_SD ==> used[s] == lcnt
      modifies seed, `used
      ensures InRow()
      ensures forall s :: IsStream(s) ==>
                used[s] == if L_QTY_SD <= s <= L_SKEY_SD then lcnt + 1
                           else if s == L_CMNT_SD then 2 * (lcnt + 1) else old(used)[s]
      ensures quantity == Draw(start, L_QTY_SD, lcnt + 1, 1, 50) && discount == Draw(start, L_DCNT_SD, lcnt + 1, 0, 10)
      ensures tax == Draw(start, L_TAX_SD, lcnt + 1, 0, 8)
      ensures shipinstruct == PickDraw(start, L_SHIP_SD, lcnt + 1, cfg.lInstructions)
      ensures shipmode == PickDraw(start, L_SMODE_SD, lcnt + 1, cfg.lModes)
      ensures comment == TextDraw(start, L_CMNT_SD, 2 * lcnt + 1, 10, 43)
      ensures partkey == Draw(start, L_PKEY_SD, lcnt + 1, 1, cfg.Total(PART))
      ensures suppNum == Draw(start, L_SKEY_SD, lcnt + 1, 0, 3)
    {
      hide NextRand, UnifInt, Settings.Total, Draw, PickDraw, TextDraw;
      quantity := DssRandom(1, 50, L_QTY_SD);
      discount := DssRandom(0, 10, L_DCNT_SD);
      tax := DssRandom(0, 8, L_TAX_SD);
      shipinstruct := PickStr(cfg.lInstructions, L_SHIP_SD);
      shipmode := PickStr(cfg.lModes, L_SMODE_SD);
      comment := DbgText(10, 43, L_CMNT_SD);
      partkey := DssRandom(1, cfg.Total(PART), L_PKEY_SD);
      suppNum := DssRandom(0, 3, L_SKEY_SD);
    }

    /** The dates of a line, and the return flag that only lines back by the current date draw. */
    method MkLineDates(date: int, lcnt: nat)
      returns (sdate: int, cdate: int, rdate: int, rflag: Option<nat>, shipped: bool)
      requires InRow() && date == OrderDate(start)
      requires used[L_SDTE_SD] == used[L_CDTE_SD] == used[L_RDTE_SD] == lcnt
      requires used[L_RFLG_SD] == ReturnedBefore(start, lcnt)
      modifies seed, `used
      ensures InRow()
      ensures forall s :: IsStream(s) ==> (used[s] ==
                if L_SDTE_SD <= s <= L_RDTE_SD then lcnt + 1
                else if s == L_RFLG_SD then ReturnedBefore(start, lcnt + 1) else old(used)[s])
      ensures sdate == ShipDate(start, lcnt) && cdate == CommitDate(start, lcnt) && rdate == ReceiptDate(start, lcnt)
      ensures rflag == if Returned(start, lcnt)
                       then Some(PickDraw(start, L_RFLG_SD, ReturnedBefore(start, lcnt) + 1, cfg.lFlags)) else None
      ensures shipped == Shipped(start, lcnt)
    {
      hide NextRand, UnifInt, Draw, PickDraw, Calendar.Julian;
      var d := DssRandom(1, 121, L_SDTE_SD);
      sdate := date + d;
      d := DssRandom(30, 90, L_CDTE_SD);
      cdate := date + d;
      d := DssRandom(1, 30, L_RDTE_SD);
      rdate := sdate + d;
      var j := Calendar.ComputeJulian(rdate);
      rflag := None;
      if j <= Calendar.CURRENTDATE {
        var flag := PickStr(cfg.lFlags, L_RFLG_SD);
        rflag := Some(flag);
      }
      j := Calendar.ComputeJulian(sdate);
      shipped := j <= Calendar.CURRENTDATE;
    }

    method MkCode(stream: int, index: int) returns (c: Code)
      requires InRow() && IsStream(stream) && used[stream] == 0
      modifies seed, `used
      ensures InRow() && c == CodeRow(stream, index, start) && used == old(used)[stream := 2]
    {
      var comment := DbgText(28, 115, stream);
      c := Code(index - 1, comment);
    }

    /** The row maker for a table. */
    method MkRow(t: int, index: nat, upd: nat) returns (row: Row)
      requires InRow() && Fresh() && IsTable(t) && cfg.Covers(t)
      modifies seed, `used
      ensures InRow() && row == MakeRow(cfg, t, index, upd, start)
      ensures forall s :: IsStream(s) ==> used[s] == RowDraws(t, start, s)
    {
      hide OrderRow, Lines, LineCount, PartRow, PartSuppRows, SupplierRow, CustomerRow, CodeRow;
      hide SupplierDraws, CustomerDraws, PartDraws;
      if t == LINE || t == ORDER || t == ORDER_LINE {
        var o, ls := MkOrder(index, upd);
        CountsAll(used, start, LineCount(start), STREAMS);
        row := OrderMade(o, ls);
      } else if t == SUPP {
        var s := MkSupp(index);
        row := SupplierMade(s);
      } else if t == CUST {
        var c := MkCust(index);
        row := CustomerMade(c);
      } else if t == PSUPP || t == PART || t == PART_PSUPP {
        var p, ps := MkPart(index);
        row := PartMade(p, ps);
      } else {
        var code := MkCode(if t == NATION then N_CMNT_SD else R_CMNT_SD, index);
        row := CodeMade(code);
      }
    }

    // ----- rows and runs -----

    ghost function Values(): (v: Streams)
      requires seed.Length == STREAMS
      reads this, seed
      ensures forall s :: IsStream(s) ==> v[s] == seed[s].value
    {
      var e := seed[..];
      Tabulate((s: int) => if 0 <= s < |e| then e[s].value else 1)
    }

    /** Forgets the draws of the previous row. */
    method RowStart()
      requires Valid()
      modifies seed, `used, `start
      ensures InRow() && Fresh() && start == old(Values())
    {
      EntriesAll(STREAMS);
      ghost var v := Values();
      var i := 0;
      while i < STREAMS
        invariant 0 <= i <= STREAMS
        invariant forall s :: IsStream(s) ==> seed[s] == if s < i then old(seed[s]).(usage := 0) else old(seed[s])
      {
        seed[i] := seed[i].(usage := 0);
        i := i + 1;
      }
      start := v;
      used := seq(STREAMS, (s: nat) => 0);
      EntriesAll(STREAMS);
      AlignedAll(STREAMS);
    }

    /**
     * Brings every stream of the table and of its child up to its boundary. When the boundaries are being calibrated,
     * a boundary that the row has exceeded is raised instead.
     */
    method RowStop(t: int, setSeeds: bool)
      requires InRow() && IsTable(t)
      modifies seed
      ensures forall s :: IsStream(s) ==> seed[s].value == Iter(Moved(t, s, used[s]), start[s])
      ensures forall s :: IsStream(s) ==> seed[s].boundary == Raised(t, s, used[s], setSeeds)
      ensures (setSeeds ==> forall s :: IsStream(s) && Padded(t, s) ==> used[s] <= Boundary(s)) ==> Valid()
    {
      hide NextRand;
      EntriesAll(STREAMS);
      AlignedAll(STREAMS);
      var m := Master(t);
      var i := 0;
      while i < STREAMS
        invariant 0 <= i <= STREAMS
        invariant forall s :: i <= s < STREAMS ==> seed[s] == old(seed[s])
        invariant forall s :: 0 <= s < i ==> seed[s] == Stopped(t, s, old(seed[s]), setSeeds)
      {
        var e := seed[i];
        if e.table == m || e.table == Child(m) {
          if setSeeds && e.usage > e.boundary {
            seed[i] := e.(boundary := e.usage);
          } else {
            var z := SpeedSeed.NthElement(e.boundary - e.usage, e.value);
            PadStream(t, i, e.usage, start[i]);
            seed[i] := e.(value := z);
          }
        }
        i := i + 1;
      }
      EntriesAll(STREAMS);
    }

    /** The boundary of a stream after a row that took `draws` from it. */
    static function Raised(t: int, s: int, draws: nat, setSeeds: bool): nat
    {
      if setSeeds && Padded(t, s) && draws > Boundary(s) then draws else Boundary(s)
    }

    /** Calibration leaves a boundary that all rows so far have kept to: it grows to what a row took, or stays. */
    static lemma RaisedIsMost(t: int, s: int, draws: nat, setSeeds: bool)
      ensures var b := Raised(t, s, draws, setSeeds);
              b >= Boundary(s) && (b > Boundary(s) ==> setSeeds && Padded(t, s) && b == draws) &&
              (setSeeds && Padded(t, s) ==> b >= draws)
    {}

    ghost function Stopped(t: int, s: int, e: Seed, setSeeds: bool): Seed
      requires IsStream(s) && |used| == STREAMS
      reads `used, `start
    {
      e.(value := Iter(Moved(t, s, used[s]), start[s]), boundary := Raised(t, s, used[s], setSeeds))
    }

    static lemma PadStream(t: int, s: int, usage: nat, v: Live)
      requires IsStream(s) && Padded(t, s)
      ensures Iter(if Boundary(s) - usage > 0 then Boundary(s) - usage else 0, Iter(usage, v)) ==
              Iter(Moved(t, s, usage), v)
    {
      if Boundary(s) > usage { IterAdd(Boundary(s) - usage, usage, v); }
    }

    /** Whatever a row has drawn for its columns, it has not drawn more than calibration would allow. */
    lemma WithinBudget(t: int)
      requires InRow() && IsTable(t) && forall s :: IsStream(s) ==> used[s] == RowDraws(t, start, s)
      ensures forall s :: IsStream(s) && Padded(t, s) ==> used[s] <= Boundary(s)
    {
      forall s | IsStream(s) && Padded(t, s) ensures used[s] <= Boundary(s) {
        Parallel.DrawBudget(t, start, s);
      }
    }

    /** The counters of the insert segments go on to the next row. */
    static method NextSegmentRow(rowsPerSegment: int, residualRows: int, updNum: nat, row: int, ghost count: nat,
                                 ghost segs: nat) returns (u: nat, r: int)
      requires segs > 0 && rowsPerSegment == count / segs && residualRows == count % segs
      ensures (u, r) == InsertSegments.Turn(count, segs, updNum, row)
      ensures u % 10000 == updNum % 10000 && u >= updNum
    {
      u, r := updNum, row + 1;
      if updNum / 10000 < residualRows {
        if r > rowsPerSegment {
          r := 0;
          u := u + 10000;
        }
      } else {
        if r >= rowsPerSegment {
          r := 0;
          u := u + 10000;
        }
      }
    }

    /** One row between row_start and row_stop. */
    method OneRow(t: int, index: nat, upd: nat, setSeeds: bool) returns (row: Row)
      requires Valid() && IsTable(t) && cfg.Covers(t)
      modifies seed, `used, `start
      ensures Valid() && row == MakeRow(cfg, t, index, upd, old(Values())) && Values() == AfterRow(t, old(Values()))
    {
      hide MakeRow, RowDraws, NextRand;
      RowStart();
      row := MkRow(t, index, upd);
      WithinBudget(t);
      RowStop(t, setSeeds);
    }

    /**
     * Generates `count` rows from index `first` on and presents each to its loader under an update number. When the
     * boundaries are being calibrated nothing is printed, and the same draws are taken.
     */
    method GenTbl(t: int, first: nat, count: nat, upd: nat, insertSegments: nat, setSeeds: bool)
      returns (out: seq<Printed>, modes: seq<nat>)
      requires Valid() && IsTable(t) && cfg.Covers(t)
      modifies seed, `used, `start
      ensures Valid()
      ensures out == if setSeeds then [] else Rows(cfg, t, first, count, upd % 10000, old(Values()))
      ensures modes == if setSeeds then [] else LoaderModes(t, count, insertSegments, upd, count)
      ensures Values() == AfterRows(t, count, old(Values()))
    {
      hide MakeRow, Print, RowDraws, AfterRow, AfterRows, Rows, LoaderModes, InsertSegments.Turn;
      ghost var v := Values();
      NoRowsYet(cfg, t, first, count, insertSegments, upd % 10000, v);
      NoRowsYet(cfg, t, first, count, insertSegments, upd, v);
      var rowsPerSegment, rowsThisSegment, residualRows := 0, -1, 0;
      if insertSegments != 0 {
        rowsPerSegment := count / insertSegments;
        residualRows := count - rowsPerSegment * insertSegments;
        assert residualRows == count % insertSegments;
      }
      var updNum := upd;
      out, modes := [], [];
      var n := 0;
      while n < count
        invariant 0 <= n <= count && Valid() && updNum % 10000 == upd % 10000
        invariant if MakesOrders(t) && insertSegments > 0 && upd > 0
                  then (updNum, rowsThisSegment) == InsertSegments.Counters(count, insertSegments, upd, n)
                  else updNum == upd
        invariant upd > 0 <==> updNum > 0
        invariant out == if setSeeds then [] else Rows(cfg, t, first, n, upd % 10000, v)
        invariant modes == if setSeeds then [] else LoaderModes(t, count, insertSegments, upd, n)
        invariant Values() == AfterRows(t, n, v)
      {
        OneMoreRow(cfg, t, first, n, upd % 10000, v);
        OneMoreMode(t, count, insertSegments, upd, n);
        var row := OneRow(t, first + n, updNum % 10000, setSeeds);
        if MakesOrders(t) && insertSegments != 0 && updNum > 0 {
          updNum, rowsThisSegment :=
            NextSegmentRow(rowsPerSegment, residualRows, updNum, rowsThisSegment, count, insertSegments);
        }
        if !setSeeds {
          out := out + [Print(t, row)];
          modes := modes + [if t < NATION then updNum else 0];
        }
        n := n + 1;
      }
    }

    // ----- skipping -----

    method AdvanceStream(stream: int, calls: nat)
      requires Valid() && IsStream(stream)
      modifies seed
      ensures Valid()
      ensures seed[stream].value == Iter(calls, old(seed[stream].value))
      ensures forall s :: IsStream(s) && s != stream ==> seed[s] == old(seed[s])
    {
      hide NextRand;
      EntriesAll(STREAMS);
      var z := SpeedSeed.NthElement(calls, seed[stream].value);
      seed[stream] := seed[stream].(value := z);
      EntriesAll(STREAMS);
    }

    method SdPart(skip: nat)
      requires Valid()
      modifies seed
      ensures Valid()
      ensures forall s :: IsStream(s) ==> seed[s].value == Iter(Tables.SdPart(s) * skip, old(seed[s].value))
    {
      hide NextRand;
      var i := P_MFG_SD;
      while i <= P_CNTR_SD
        invariant P_MFG_SD <= i <= P_CNTR_SD + 1 && Valid()
        invariant forall s :: IsStream(s) ==>
                    seed[s].value == if s < i then Iter(skip, old(seed[s].value)) else old(seed[s].value)
      {
        AdvanceStream(i, skip);
        i := i + 1;
      }
      AdvanceStream(P_CMNT_SD, skip * 2);
      AdvanceStream(P_NAME_SD, skip * 92);
    }

    method SdLine(child: int, skip: nat)
      requires Valid()
      modifies seed
      ensures Valid()
      ensures forall s :: IsStream(s) ==> seed[s].value == Iter(Tables.SdLine(child, s) * skip, old(seed[s].value))
    {
      hide NextRand;
      var j := 0;
      while j < O_LCNT_MAX
        invariant 0 <= j <= O_LCNT_MAX && Valid()
        invariant forall s :: IsStream(s) ==> seed[s].value == Iter(LineSkips(s, j) * skip, old(seed[s].value))
      {
        SdLineRound(skip);
        forall s | IsStream(s)
          ensures Iter(LineSkips(s, 1) * skip, Iter(LineSkips(s, j) * skip, old(seed[s].value))) ==
                  Iter(LineSkips(s, j + 1) * skip, old(seed[s].value))
        {
          LineMore(s, j, skip, old(seed[s].value));
        }
        j := j + 1;
      }
      if child == 1 {
        AdvanceStream(O_ODATE_SD, skip);
        AdvanceStream(O_LCNT_SD, skip);
      }
    }

    /** Draws skipped per row after j rounds of the loop of sd_line. */
    static function LineSkips(s: int, j: nat): nat
    {
      if L_QTY_SD <= s <= L_RFLG_SD then j else if s == L_CMNT_SD then 2 * j else 0
    }

    static lemma LineMore(s: int, j: nat, skip: nat, v: Live)
      ensures Iter(LineSkips(s, 1) * skip, Iter(LineSkips(s, j) * skip, v)) == Iter(LineSkips(s, j + 1) * skip, v)
    {
      var a, b := LineSkips(s, 1), LineSkips(s, j);
      assert a + b == LineSkips(s, j + 1);
      hide LineSkips, Iter;
      assert a * skip + b * skip == (a + b) * skip;
      IterAdd(a * skip, b * skip, v);
    }

    method SdLineRound(skip: nat)
      requires Valid()
      modifies seed
      ensures Valid()
      ensures forall s :: IsStream(s) ==> seed[s].value == Iter(LineSkips(s, 1) * skip, old(seed[s].value))
    {
      hide NextRand;
      var i := L_QTY_SD;
      while i <= L_RFLG_SD
        invariant L_QTY_SD <= i <= L_RFLG_SD + 1 && Valid()
        invariant forall s :: IsStream(s) ==>
          seed[s].value == if L_QTY_SD <= s < i then Iter(skip, old(seed[s].value)) else old(seed[s].value)
      {
        AdvanceStream(i, skip);
        i := i + 1;
      }
      AdvanceStream(L_CMNT_SD, skip * 2);
    }

    method SdOrder(skip: nat)
      requires Valid()
      modifies seed
      ensures Valid()
      ensures forall s :: IsStream(s) ==> seed[s].value == Iter(Tables.SdOrder(s) * skip, old(seed[s].value))
    {
      hide NextRand;
      AdvanceStream(O_LCNT_SD, skip);
      AdvanceStream(O_CKEY_SD, skip);
      AdvanceStream(O_CMNT_SD, skip * 2);
      AdvanceStream(O_SUPP_SD, skip);
      AdvanceStream(O_CLRK_SD, skip);
      AdvanceStream(O_PRIO_SD, skip);
      AdvanceStream(O_ODATE_SD, skip);
    }

    method SdPsupp(skip: nat)
      requires Valid()
      modifies seed
      ensures Valid()
      ensures forall s :: IsStream(s) ==> seed[s].value == Iter(Tables.SdPsupp(s) * skip, old(seed[s].value))
    {
      hide NextRand;
      var j := 0;
      while j < SUPP_PER_PART
        invariant 0 <= j <= SUPP_PER_PART && Valid()
        invariant forall s :: IsStream(s) ==> seed[s].value == Iter(PsuppSkips(s, j) * skip, old(seed[s].value))
      {
        SdPsuppRound(skip);
        forall s | IsStream(s)
          ensures Iter(PsuppSkips(s, 1) * skip, Iter(PsuppSkips(s, j) * skip, old(seed[s].value))) ==
                  Iter(PsuppSkips(s, j + 1) * skip, old(seed[s].value))
        {
          PsuppMore(s, j, skip, old(seed[s].value));
        }
        j := j + 1;
      }
    }

    static lemma PsuppMore(s: int, j: nat, skip: nat, v: Live)
      ensures Iter(PsuppSkips(s, 1) * skip, Iter(PsuppSkips(s, j) * skip, v)) == Iter(PsuppSkips(s, j + 1) * skip, v)
    {
      var a, b := PsuppSkips(s, 1), PsuppSkips(s, j);
      assert a + b == PsuppSkips(s, j + 1);
      hide PsuppSkips, Iter;
      assert a * skip + b * skip == (a + b) * skip;
      IterAdd(a * skip, b * skip, v);
    }

    method SdPsuppRound(skip: nat)
      requires Valid()
      modifies seed
      ensures Valid()
      ensures forall s :: IsStream(s) ==> seed[s].value == Iter(PsuppSkips(s, 1) * skip, old(seed[s].value))
    {
      hide NextRand;
      AdvanceStream(PS_QTY_SD, skip);
      AdvanceStream(PS_SCST_SD, skip);
      AdvanceStream(PS_CMNT_SD, skip * 2);
    }

    static function PsuppSkips(s: int, j: nat): nat
    {
      if s == PS_QTY_SD || s == PS_SCST_SD then j else if s == PS_CMNT_SD then 2 * j else 0
    }

    method SdCust(skip: nat)
      requires Valid()
      modifies seed
      ensures Valid()
      ensures forall s :: IsStream(s) ==> seed[s].value == Iter(Tables.SdCust(s) * skip, old(seed[s].value))
    {
      hide NextRand;
      AdvanceStream(C_ADDR_SD, skip * 9);
      AdvanceStream(C_CMNT_SD, skip * 2);
      AdvanceStream(C_NTRG_SD, skip);
      AdvanceStream(C_PHNE_SD, 3 * skip);
      AdvanceStream(C_ABAL_SD, skip);
      AdvanceStream(C_MSEG_SD, skip);
    }

    method SdSupp(skip: nat)
      requires Valid()
      modifies seed
      ensures Valid()
      ensures forall s :: IsStream(s) ==> seed[s].value == Iter(Tables.SdSupp(s) * skip, old(seed[s].value))
    {
      hide NextRand;
      AdvanceStream(S_NTRG_SD, skip);
      AdvanceStream(S_PHNE_SD, 3 * skip);
      AdvanceStream(S_ABAL_SD, skip);
      AdvanceStream(S_ADDR_SD, skip * 9);
      AdvanceStream(S_CMNT_SD, skip * 2);
      AdvanceStream(BBB_CMNT_SD, skip);
      AdvanceStream(BBB_JNK_SD, skip);
      AdvanceStream(BBB_OFFSET_SD, skip);
      AdvanceStream(BBB_TYPE_SD, skip);
    }

    /** The skip routine registered for a table. */
    method GenSeed(t: int, child: int, skip: nat)
      requires Valid() && IsChunked(t)
      modifies seed
      ensures Valid()
      ensures forall s :: IsStream(s) ==> seed[s].value == Iter(Tables.GenSeed(t, child, s) * skip, old(seed[s].value))
    {
      hide NextRand;
      if t == PART || t == PART_PSUPP {
        SdPart(skip);
      } else if t == PSUPP {
        SdPsupp(skip);
      } else if t == SUPP {
        SdSupp(skip);
      } else if t == CUST {
        SdCust(skip);
      } else if t == ORDER || t == ORDER_LINE {
        SdOrder(skip);
      } else {
        SdLine(child, skip);
      }
    }

    /** Skips `skip` rows of a table and of its child. */
    method SkipRows(t: int, skip: nat)
      requires Valid() && IsChunked(t)
      modifies seed
      ensures Valid()
      ensures forall s :: IsStream(s) ==> seed[s].value == Iter(SkipPerRow(t, s) * skip, old(seed[s].value))
    {
      hide NextRand;
      GenSeed(t, if t == LINE then 1 else 0, skip);
      if Child(t) != NONE {
        label master:
        GenSeed(Child(t), 0, skip);
        forall s | IsStream(s)
          ensures seed[s].value == Iter(SkipPerRow(t, s) * skip, old(seed[s].value))
        {
          var a, b := Tables.GenSeed(t, 0, s), Tables.GenSeed(Child(t), 0, s);
          IterAdd(b * skip, a * skip, old(seed[s].value));
          assert b * skip + a * skip == (a + b) * skip;
        }
      }
    }

    /**
     * Positions the streams for step `step` of `procs`; a step past the last skips the remainder as well, but only
     * with the table's own routine. A scale or step of zero does nothing.
     */
    method SetState(t: int, scale: int, procs: int, step: int) returns (result: int, extra: int)
      requires Valid() && IsChunked(t) && procs >= 1 && (scale == 0 || scale == cfg.scale)
      modifies seed
      ensures Valid()
      ensures scale == 0 || step == 0 ==> result == 0 && Values() == old(Values())
      ensures scale != 0 && step != 0 ==> result == ChunkRows(cfg, t, procs) && extra == cfg.Total(t) % procs
      ensures scale != 0 && 1 <= step <= procs ==>
                Values() == Skipped(t, ChunkRows(cfg, t, procs) * (step - 1), old(Values()))
      ensures scale != 0 && step > procs ==>
                Values() == SkippedPast(t, ChunkRows(cfg, t, procs) * (step - 1), cfg.Total(t) % procs, old(Values()))
    {
      hide NextRand, SkipPerRow, Tables.GenSeed;
      extra := 0;
      if scale == 0 || step == 0 {
        return 0, extra;
      }
      cfg.TotalPositive(t);
      var rowcount := cfg.Base(t) * scale;
      extra := rowcount % procs;
      rowcount := rowcount / procs;
      result := rowcount;
      ghost var v := Values();
      assert Values() == Skipped(t, rowcount * 0, v);
      var i := 0;
      while i < step - 1
        invariant 0 <= i && (i <= step - 1 || i == 0) && Valid()
        invariant Values() == Skipped(t, rowcount * i, v)
      {
        ghost var w := Values();
        SkipRows(t, rowcount);
        SkippedNext(t, rowcount, i, v, w);
        i := i + 1;
      }
      if step > procs {
        GenSeed(t, 0, extra);
      }
    }

    /** Skipping once more. */
    lemma SkippedNext(t: int, rowcount: nat, i: nat, v: Streams, w: Streams)
      requires Valid() && IsChunked(t) && w == Skipped(t, rowcount * i, v)
      requires forall s :: IsStream(s) ==> seed[s].value == Iter(SkipPerRow(t, s) * rowcount, w[s])
      ensures Values() == Skipped(t, rowcount * (i + 1), v)
    {
      hide NextRand, SkipPerRow, Iter;
      assert rowcount + rowcount * i == rowcount * (i + 1);
      forall s | IsStream(s) ensures Values()[s] == Skipped(t, rowcount * (i + 1), v)[s] {
        SkipMore(t, s, rowcount, rowcount * i, v[s]);
      }
    }

    static lemma SkipMore(t: int, s: int, a: nat, b: nat, v: Live)
      requires IsChunked(t) && IsStream(s)
      ensures Iter(SkipPerRow(t, s) * a, Iter(SkipPerRow(t, s) * b, v)) == Iter(SkipPerRow(t, s) * (a + b), v)
    {
      var k := SkipPerRow(t, s);
      IterAdd(k * a, k * b, v);
      assert k * a + k * b == k * (a + b);
    }

    /**
     * One chunk of a table, as a process started with -C children -S step prints it. Step 0 prints nothing, and a step
     * past the last prints rows past the last.
     */
    method PartialTable(t: int, children: int, step: nat) returns (out: seq<Printed>)
      requires Valid() && IsChunked(t) && cfg.Covers(t) && children >= 1
      modifies seed, `used, `start
      ensures Valid()
      ensures step == 0 ==> out == [] && Values() == old(Values())
      ensures 1 <= step <= children ==>
                out == Chunk(cfg, t, children, step, old(Values())) &&
                Values() == AfterChunk(cfg, t, children, step, old(Values()))
      ensures step > children ==>
                out == PastChunk(cfg, t, children, step, old(Values())) &&
                Values() == AfterPast(cfg, t, children, step, old(Values()))
    {
      hide MakeRow, Print, AfterRow, AfterRows, Rows, Settings.Total, Skipped, SkippedPast, LoaderModes;
      var rowcnt, extra := SetState(t, cfg.scale, children, step);
      if step == 0 {
        out := [];
      } else {
        var count := rowcnt + (if step == children then extra else 0);
        var rows, modes := GenTbl(t, rowcnt * (step - 1) + 1, count, 0, 0, false);
        out := rows;
      }
    }
  }
}
