/**
 * The customer keys of orders at every scale, the 64-bit draws of the large ones included, with the one stream that
 * they come from (build.c, rng64.c, rnd.c, speed_seed.c).
 */
module CustomerKeys {
  import opened ModArith
  import opened Rnd
  import opened Rng64
  import opened Tables
  import opened Build
  import opened Runs
  import opened FarDraws
  import Generator
  import Parallel
  import SpeedSeed

  /** Below the large scales the stream holds 31-bit values. */
  predicate Holds(scale: int, v: Int64)
  {
    scale < LARGE_SCALE ==> 0 < v < MODULUS
  }

  /** The stream after one draw. */
  function Drawn(scale: int, v: Int64): (w: Int64)
    requires Holds(scale, v)
    ensures Holds(scale, w)
  {
    if scale >= LARGE_SCALE then NextRand64(v) else NextRand(v)
  }

  /** The stream after the draws of n orders. */
  function After(scale: int, n: nat, v: Int64): (w: Int64)
    requires Holds(scale, v)
    ensures Holds(scale, w)
  {
    if n == 0 then v else Drawn(scale, After(scale, n - 1, v))
  }

  /** The customer of an order whose draw has moved the stream to w. */
  function Key(scale: int, max: int, w: Int64): int
    requires Holds(scale, w)
  {
    Buyer(if scale >= LARGE_SCALE then Reduce64(1, max, w) else UnifInt(1, max, w), max)
  }

  /** The customers of n orders, one after the other. */
  function Column(scale: int, max: int, n: nat, v: Int64): (keys: seq<int>)
    requires Holds(scale, v)
    ensures |keys| == n
  {
    if n == 0 then [] else Column(scale, max, n - 1, v) + [Key(scale, max, After(scale, n, v))]
  }

  // ----- the stream, updated in place -----

  class KeyStream {
    var value: Int64
    var usage: nat

    constructor (v: Int64)
      ensures value == v && usage == 0
    {
      value, usage := v, 0;
    }

    method RowStart()
      modifies `usage
      ensures usage == 0
    {
      usage := 0;
    }

    method DssRandom64(low: int, high: int) returns (tgt: int)
      modifies this
      ensures value == NextRand64(old(value)) && usage == old(usage) + 1
      ensures tgt == Reduce64(low, high, value)
    {
      var lo, hi := low, high;
      if lo > hi {
        lo, hi := hi, lo;
      }
      value := NextRand64(value);
      var temp: int := value;
      if temp < 0 {
        temp := Signed(-temp);
      }
      tgt := lo + TruncMod(temp, hi - lo + 1);
      usage := usage + 1;
    }

    method DssRandom(low: int, high: int) returns (tgt: int)
      requires 0 < value < MODULUS
      modifies this
      ensures 0 < old(value) < MODULUS && value == NextRand(old(value)) && usage == old(usage) + 1
      ensures tgt == UnifInt(low, high, value)
    {
      value := NextRand(value);
      tgt := UnifInt(low, high, value);
      usage := usage + 1;
    }

    /** The choice of the customer in mk_order. */
    method MkOrderKey(scale: int, max: int) returns (custkey: int)
      requires Holds(scale, value) && max >= 1
      modifies this
      ensures Holds(scale, old(value)) && value == Drawn(scale, old(value)) && usage == old(usage) + 1
      ensures custkey == Key(scale, max, value)
    {
      hide NextRand, NextRand64, UnifInt, Reduce64, Buyer;
      if scale >= LARGE_SCALE {
        custkey := DssRandom64(1, max);
        ReduceBelow(max, value);
      } else {
        custkey := DssRandom(1, max);
        UnifIntRange(1, max, value);
      }
      custkey := Generator.Dbgen.LivingBuyer(custkey, max);
    }

    /** Pads the stream by the 31-bit generator; after the one draw of an order there is nothing to pad. */
    method RowStop()
      requires usage < Boundary(O_CKEY_SD) ==> 0 < value < MODULUS
      modifies `value
      ensures usage >= Boundary(O_CKEY_SD) ==> value == old(value)
    {
      var z := SpeedSeed.NthElement(Boundary(O_CKEY_SD) - usage, value);
      value := z;
    }

    /** The customers of n orders generated in a row. */
    method Orders(scale: int, max: int, n: nat) returns (keys: seq<int>)
      requires Holds(scale, value) && max >= 1
      modifies this
      ensures Holds(scale, old(value))
      ensures keys == Column(scale, max, n, old(value)) && value == After(scale, n, old(value))
    {
      hide Key, Drawn;
      keys := [];
      var i := 0;
      while i < n
        invariant 0 <= i <= n && Holds(scale, old(value))
        invariant keys == Column(scale, max, i, old(value)) && value == After(scale, i, old(value))
      {
        RowStart();
        var key := MkOrderKey(scale, max);
        keys := keys + [key];
        RowStop();
        i := i + 1;
      }
    }

    /** The skip of sd_order, by the 31-bit generator at every scale. */
    method SdOrder(skip: nat)
      requires 0 < value < MODULUS
      modifies `value
      ensures 0 < old(value) < MODULUS && value == Iter(skip, old(value))
    {
      var z := SpeedSeed.NthElement(skip, value);
      value := z;
    }

    /** The customers of a chunk of `size` orders that starts after `skip` orders. */
    method ChunkOrders(scale: int, max: int, skip: nat, size: nat) returns (keys: seq<int>)
      requires 0 < value < MODULUS && max >= 1
      modifies this
      ensures 0 < old(value) < MODULUS && keys == Column(scale, max, size, Iter(skip, old(value)))
    {
      SdOrder(skip);
      keys := Orders(scale, max, size);
    }
  }

  lemma ReduceBelow(max: int, w: Int64)
    requires max >= 1
    ensures Reduce64(1, max, w) <= max
  {}

  // ----- below the large scales -----

  lemma {:induction false} SmallAfter(scale: int, n: nat, v: Live)
    requires scale < LARGE_SCALE
    ensures After(scale, n, v) == Iter(n, v)
  {
    hide NextRand;
    if n > 0 { SmallAfter(scale, n - 1, v); }
  }

  lemma {:induction false} AfterAdd(scale: int, a: nat, b: nat, v: Int64)
    requires Holds(scale, v)
    ensures After(scale, a + b, v) == After(scale, b, After(scale, a, v))
  {
    hide Drawn;
    if b > 0 {
      AfterAdd(scale, a, b - 1, v);
      assert a + b - 1 == a + (b - 1);
    }
  }

  lemma {:induction false} KeysSplit(scale: int, max: int, a: nat, b: nat, v: Int64)
    requires Holds(scale, v)
    ensures Column(scale, max, a + b, v) == Column(scale, max, a, v) + Column(scale, max, b, After(scale, a, v))
  {
    hide Key, Drawn;
    if b > 0 {
      KeysSplit(scale, max, a, b - 1, v);
      AfterAdd(scale, a, b, v);
    }
  }

  /** These are the customers in the generated order rows. */
  lemma {:induction false} ColumnOfRows(cfg: OrderConfig, first: nat, n: nat, upd: nat, v: Streams, i: nat)
    requires i < n
    ensures Rows(cfg, ORDER, first, n, upd, v)[i].OrderOnly?
    ensures Rows(cfg, ORDER, first, n, upd, v)[i].o.custkey ==
            Column(cfg.scale, cfg.Total(CUST), n, v[O_CKEY_SD])[i]
  {
    hide Lines, LineCount, TotalCharge, AfterRow, Key, ShippedBefore, PickDraw, TextDraw, Settings.Total;
    if i < n - 1 {
      ColumnOfRows(cfg, first, n - 1, upd, v, i);
    } else {
      var w := AfterRows(ORDER, n - 1, v);
      StreamAfterOrders(n - 1, v);
      SmallAfter(cfg.scale, n, v[O_CKEY_SD]);
      KeyOfRow(cfg, first + n - 1, upd, w);
    }
  }

  lemma StreamAfterOrders(n: nat, v: Streams)
    ensures AfterRows(ORDER, n, v)[O_CKEY_SD] == Iter(n, v[O_CKEY_SD])
  {
    hide AfterRow, AfterRows, Iter;
    Parallel.SkipReplacesRows(ORDER, n, v);
    assert SkipPerRow(ORDER, O_CKEY_SD) == 1;
  }

  lemma KeyOfRow(cfg: OrderConfig, index: nat, upd: nat, w: Streams)
    ensures OrderRow(cfg, index, upd, w).custkey == Key(cfg.scale, cfg.Total(CUST), Iter(1, w[O_CKEY_SD]))
  {
    hide Lines, LineCount, TotalCharge, ShippedBefore, PickDraw, TextDraw, UnifInt, Settings.Total;
  }

  // ----- chunks -----

  /** The customers in chunks 1..k, each started by skipping the orders before it. */
  function ChunkKeys(scale: int, max: int, total: nat, children: nat, k: nat, v: Live): seq<int>
    requires k <= children
  {
    if k == 0 then [] else
      ChunkKeys(scale, max, total, children, k - 1, v) +
      Column(scale, max, total / children + (if k == children then total % children else 0),
           Iter(total / children * (k - 1), v))
  }

  lemma {:induction false} SmallChunks(scale: int, max: int, total: nat, children: nat, k: nat, v: Live)
    requires scale < LARGE_SCALE && k < children
    ensures total / children * k >= 0
    ensures ChunkKeys(scale, max, total, children, k, v) == Column(scale, max, total / children * k, v)
  {
    hide Column, Iter;
    var per := total / children;
    if k == 0 {
      assert per * 0 == 0;
      NoKeys(scale, max, v);
    } else {
      SmallChunks(scale, max, total, children, k - 1, v);
      assert per * (k - 1) + per == per * k;
      SmallAfter(scale, per * (k - 1), v);
      KeysSplit(scale, max, per * (k - 1), per, v);
    }
  }

  lemma NoKeys(scale: int, max: int, v: Int64)
    requires Holds(scale, v)
    ensures Column(scale, max, 0, v) == []
  {}

  lemma LastChunk(total: nat, children: nat)
    requires children >= 1
    ensures total / children * (children - 1) + (total / children + total % children) == total
  {
    assert total / children * (children - 1) == total / children * children - total / children;
  }

  lemma SmallScalesAgree(scale: int, max: int, total: nat, children: nat, v: Live)
    requires scale < LARGE_SCALE && children >= 1
    ensures ChunkKeys(scale, max, total, children, children, v) == Column(scale, max, total, v)
  {
    hide Column, Iter;
    var per := total / children;
    SmallChunks(scale, max, total, children, children - 1, v);
    LastChunk(total, children);
    SmallAfter(scale, per * (children - 1), v);
    KeysSplit(scale, max, per * (children - 1), per + total % children, v);
  }

  // ----- from the large scales on -----

  /** Remainders of a multiple agree only if the remainders do. */
  lemma RemainderOfMultiple(x: nat, base: nat, k: nat)
    requires base > 0 && k > 0
    ensures base * k > 0 && x % (base * k) % base == x % base
  {
    MulMono(1, k, base);
    var q := x / (base * k);
    assert x == x % (base * k) + (k * q) * base by { assert q * (base * k) == (k * q) * base; }
    ModAddMultiple(x % (base * k), k * q, base);
  }

  lemma {:induction false} LargeAfter(scale: int, n: nat, v: Int64)
    requires scale >= LARGE_SCALE
    ensures After(scale, n, v) == Iter64(n, v)
  {
    hide NextRand64;
    if n > 0 { LargeAfter(scale, n - 1, v); }
  }

  /** What order 1500001 draws in a serial run, and after skipping the orders before it. */
  lemma Draws1500001()
    ensures NextRand64(Iter64(1500000, DECLARED)) == -6202018437732809212
    ensures NextRand64(Iter(1500000, DECLARED)) == 3916392120539881056
  {
    hide Iter, Iter64;
    After1500000();
    SignedIs(-7370245460366813201 * 6364136223846793005 + 1, -2542738486832077537, -6202018437732809212);
    SignedIs(1575709499 * 6364136223846793005 + 1, 543620590, 3916392120539881056);
  }

  /** The customers they lead to, whatever multiple of 150000 customers there are. */
  lemma Keys1500001(scale: int, k: nat)
    requires scale >= LARGE_SCALE && k > 0
    ensures var max := 150000 * k;
            Key(scale, max, -6202018437732809212) % 150000 == 59213 &&
            Key(scale, max, 3916392120539881056) % 150000 == 31057
  {
    var max := 150000 * k;
    var x, y := 6202018437732809212, 3916392120539881056;
    ReduceMagnitude(1, max, -x);
    ReduceMagnitude(1, max, y);
    RemainderOfMultiple(x, 150000, k);
    RemainderOfMultiple(y, 150000, k);
    assert x % 150000 == 59212 && y % 150000 == 31056;
    NoMultipleOfThree(x % max, 59212);
    NoMultipleOfThree(y % max, 31056);
  }

  /** A key one above such a number is not moved, and has the next remainder. */
  lemma NoMultipleOfThree(r: int, rest: int)
    requires r % 150000 == rest && 0 <= rest < 149999 && rest % 3 != 2
    ensures (r + 1) % 3 != 0 && (r + 1) % 150000 == rest + 1
  {
    DivModUnique(r + 1, 150000, r / 150000, rest + 1);
    assert r + 1 == 3 * (50000 * (r / 150000)) + (rest + 1);
  }

  /** Entry i is the customer of the order after i others. */
  lemma {:induction false} ColumnAt(scale: int, max: int, n: nat, v: Int64, i: nat)
    requires Holds(scale, v) && i < n
    ensures Column(scale, max, n, v)[i] == Key(scale, max, Drawn(scale, After(scale, i, v)))
  {
    hide Key, Drawn;
    if i < n - 1 { ColumnAt(scale, max, n - 1, v, i); }
  }

  /** With `per` orders to every chunk, the second chunk begins with order per + 1, drawn after a skip. */
  lemma {:induction false} ChunkKeysAt(scale: int, max: int, per: nat, children: nat, k: nat, v: Live)
    requires scale >= LARGE_SCALE && 1 <= k <= children && per > 0
    ensures per * children >= 0 && per * k >= per
    ensures |ChunkKeys(scale, max, per * children, children, k, v)| == per * k
    ensures k >= 2 ==>
              per * k > per &&
              ChunkKeys(scale, max, per * children, children, k, v)[per] == Key(scale, max, NextRand64(Iter(per, v)))
  {
    hide Key, NextRand, NextRand64, Column, Iter;
    EvenChunks(per, children);
    MulMono(1, k, per);
    assert per * (k - 1) + per == per * k;
    if k > 1 {
      ChunkKeysAt(scale, max, per, children, k - 1, v);
      MulMono(2, k, per);
      if k == 2 { ColumnAt(scale, max, per, Iter(per, v), 0); }
    } else {
      NoChunks(scale, max, per * children, children, v);
    }
  }

  lemma NoChunks(scale: int, max: int, total: nat, children: nat, v: Live)
    ensures ChunkKeys(scale, max, total, children, 0, v) == []
  {}

  lemma EvenChunks(per: nat, children: nat)
    requires children > 0
    ensures per * children >= 0 && per * children / children == per && per * children % children == 0
  {
    MulMono(0, per, children);
    DivModUnique(per * children, children, per, 0);
  }

  /** The largest number of chunks that an option can carry. */
  const MOST_CHILDREN := 0x7FFF_FFFF

  /**
   * With the program's row counts and the declared seed, at any scale an option can carry, chunked generation gives
   * every order the customer that serial generation gives it, for every number of chunks that an option can carry,
   * exactly at the scales below 30000. From there on as many chunks as the scale already differ, in the first order of
   * the second chunk.
   */
  lemma KeysAgreeExactly(cfg: Config)
    requires cfg.custBase % 150000 == 0 && cfg.orderBase == 1500000 && cfg.scale <= MOST_CHILDREN
    ensures cfg.Total(ORDER) >= 1
    ensures (forall children: nat :: 1 <= children <= MOST_CHILDREN ==>
              ChunkKeys(cfg.scale, cfg.Total(CUST), cfg.Total(ORDER), children, children, INITIAL_VALUES[O_CKEY_SD]) ==
              Column(cfg.scale, cfg.Total(CUST), cfg.Total(ORDER), INITIAL_VALUES[O_CKEY_SD])) <==>
            cfg.scale < LARGE_SCALE
  {
    cfg.TotalPositive(ORDER);
    var scale, max, total, v := cfg.scale, cfg.Total(CUST), cfg.Total(ORDER), INITIAL_VALUES[O_CKEY_SD];
    assert total == 1500000 * scale;
    hide ChunkKeys, Column, Key, NextRand64, NextRand, Iter, Iter64;
    if scale < LARGE_SCALE {
      forall children: nat | 1 <= children <= MOST_CHILDREN
        ensures ChunkKeys(scale, max, total, children, children, v) == Column(scale, max, total, v)
      {
        SmallScalesAgree(scale, max, total, children, v);
      }
    } else {
      var k := cfg.custBase / 150000 * scale;
      assert max == 150000 * k && k > 0 by { Multiple(cfg.custBase, scale); }
      assert v == DECLARED;
      ScaleChunksDiffer(scale, max, k);
    }
  }

  lemma ScaleChunksDiffer(scale: nat, max: int, k: nat)
    requires scale >= LARGE_SCALE && k > 0 && max == 150000 * k
    ensures |ChunkKeys(scale, max, 1500000 * scale, scale, scale, DECLARED)| > 1500000
    ensures ChunkKeys(scale, max, 1500000 * scale, scale, scale, DECLARED)[1500000] !=
            Column(scale, max, 1500000 * scale, DECLARED)[1500000]
  {
    hide ChunkKeys, Column, Key, NextRand64, NextRand, Iter, Iter64;
    Draws1500001();
    Keys1500001(scale, k);
    ChunkKeysAt(scale, max, 1500000, scale, scale, DECLARED);
    ColumnAt(scale, max, 1500000 * scale, DECLARED, 1500000);
    LargeAfter(scale, 1500000, DECLARED);
  }

  lemma Multiple(base: int, scale: int)
    requires base % 150000 == 0 && base >= 1 && scale >= 1
    ensures base * scale == 150000 * (base / 150000 * scale) && base / 150000 * scale > 0
  {
    MulMono(1, scale, base / 150000);
  }

  /**
   * A draw does leave the range of the customers in a run: at scale 128950, chunk 114 of 229 gives its order
   * number 705537818 the customer -3482275807.
   */
  lemma CustomerEscapesInRun(cfg: Config)
    requires cfg.custBase == 150000 && cfg.orderBase == 1500000 && cfg.scale == 128950
    ensures cfg.Total(ORDER) >= 0 && cfg.Total(ORDER) / 229 > 705537817
    ensures var per := cfg.Total(ORDER) / 229;
            Column(cfg.scale, cfg.Total(CUST), per, Iter(per * 113, INITIAL_VALUES[O_CKEY_SD]))[705537817] ==
            -3482275807
  {
    var scale, max, v := cfg.scale, cfg.Total(CUST), Iter(95445524015, DECLARED);
    assert cfg.Total(ORDER) / 229 == 844650655 && max == 19342500000 && INITIAL_VALUES[O_CKEY_SD] == DECLARED;
    hide Column, NextRand64, NextRand, Iter, Iter64;
    BeforeLowestReached();
    ColumnAt(scale, max, 844650655, v, 705537817);
    LargeAfter(scale, 705537817, v);
    LowestFrom();
    LowestKey(scale);
  }

  lemma LowestKey(scale: int)
    requires scale >= LARGE_SCALE
    ensures Key(scale, 19342500000, -HALF) == -3482275807
  {
    assert Signed(HALF) == -HALF;
  }
}
