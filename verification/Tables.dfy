/** Tables, random streams, and who pads and skips which stream (dss.h, rnd.h, driver.c). */
module Tables {
  import opened Rnd

  const NONE := -1
  const PART := 0
  const PSUPP := 1
  const SUPP := 2
  const CUST := 3
  const ORDER := 4
  const LINE := 5
  const ORDER_LINE := 6
  const PART_PSUPP := 7
  const NATION := 8
  const REGION := 9

  const STREAMS := 48
  const P_MFG_SD := 0
  const P_BRND_SD := 1
  const P_TYPE_SD := 2
  const P_SIZE_SD := 3
  const P_CNTR_SD := 4
  const P_CMNT_SD := 6
  const PS_QTY_SD := 7
  const PS_SCST_SD := 8
  const PS_CMNT_SD := 9
  const O_SUPP_SD := 10
  const O_CLRK_SD := 11
  const O_CMNT_SD := 12
  const O_ODATE_SD := 13
  const L_QTY_SD := 14
  const L_DCNT_SD := 15
  const L_TAX_SD := 16
  const L_SHIP_SD := 17
  const L_SMODE_SD := 18
  const L_PKEY_SD := 19
  const L_SKEY_SD := 20
  const L_SDTE_SD := 21
  const L_CDTE_SD := 22
  const L_RDTE_SD := 23
  const L_RFLG_SD := 24
  const L_CMNT_SD := 25
  const C_ADDR_SD := 26
  const C_NTRG_SD := 27
  const C_PHNE_SD := 28
  const C_ABAL_SD := 29
  const C_MSEG_SD := 30
  const C_CMNT_SD := 31
  const S_ADDR_SD := 32
  const S_NTRG_SD := 33
  const S_PHNE_SD := 34
  const S_ABAL_SD := 35
  const S_CMNT_SD := 36
  const P_NAME_SD := 37
  const O_PRIO_SD := 38
  const HVAR_SD := 39
  const O_CKEY_SD := 40
  const N_CMNT_SD := 41
  const R_CMNT_SD := 42
  const O_LCNT_SD := 43
  const BBB_JNK_SD := 44
  const BBB_TYPE_SD := 45
  const BBB_CMNT_SD := 46
  const BBB_OFFSET_SD := 47

  const SUPP_PER_PART := 4
  const O_LCNT_MAX := 7
  const COLORS := 92

  /** The values of all streams at one moment. */
  type Streams = v: seq<Live> | |v| == STREAMS witness seq(STREAMS, (i: nat) => 1)

  /** The values the streams are declared with. */
  const INITIAL_VALUES: Streams :=
    [1, 46831694, 1841581359, 1193163244, 727633698, 933588178, 804159733, 1671059989] +
    [1051288424, 1961692154, 1227283347, 1171034773, 276090261, 1066728069, 209208115, 554590007] +
    [721958466, 1371272478, 675466456, 1808217256, 2095021727, 1769349045, 904914315, 373135028] +
    [717419739, 1095462486, 881155353, 1489529863, 1521138112, 298370230, 1140279430, 1335826707] +
    [706178559, 110356601, 884434366, 962338209, 1341315363, 709314158, 591449447, 431918286] +
    [851767375, 606179079, 1500869201, 1434868289, 263032577, 753643799, 202794285, 715851524]

  predicate IsStream(s: int) { 0 <= s < STREAMS }

  predicate IsTable(t: int) { PART <= t <= REGION }

  predicate MakesOrders(t: int) { t == ORDER || t == LINE || t == ORDER_LINE }

  predicate MakesParts(t: int) { t == PART || t == PSUPP || t == PART_PSUPP }

  /** The table that owns a stream. */
  function StreamTable(s: int): int
  {
    if P_MFG_SD <= s <= P_CNTR_SD || s == P_CMNT_SD || s == P_NAME_SD then PART
    else if PS_QTY_SD <= s <= PS_CMNT_SD then PSUPP
    else if O_SUPP_SD <= s <= O_ODATE_SD || s == O_PRIO_SD || s == O_CKEY_SD || s == O_LCNT_SD then ORDER
    else if L_QTY_SD <= s <= L_CMNT_SD || s == HVAR_SD then LINE
    else if C_ADDR_SD <= s <= C_CMNT_SD then CUST
    else if S_ADDR_SD <= s <= S_CMNT_SD || BBB_JNK_SD <= s <= BBB_OFFSET_SD then SUPP
    else if s == N_CMNT_SD then NATION
    else if s == R_CMNT_SD then REGION
    else NONE
  }

  /** The number of draws every row is rounded up to. */
  function Boundary(s: int): nat
  {
    if s == P_CMNT_SD || s == O_CMNT_SD || s == C_CMNT_SD || s == S_CMNT_SD || s == N_CMNT_SD || s == R_CMNT_SD then 2
    else if s == PS_QTY_SD || s == PS_SCST_SD then SUPP_PER_PART
    else if s == PS_CMNT_SD then SUPP_PER_PART * 2
    else if L_QTY_SD <= s <= L_RFLG_SD then O_LCNT_MAX
    else if s == L_CMNT_SD then O_LCNT_MAX * 2
    else if s == C_ADDR_SD || s == S_ADDR_SD then 9
    else if s == C_PHNE_SD || s == S_PHNE_SD then 3
    else if s == P_NAME_SD then COLORS
    else 1
  }

  /** The tables and boundaries that the 48 streams are declared with, in order. */
  const OWNERS: seq<int> :=
    [PART, PART, PART, PART, PART, NONE, PART, PSUPP] + [PSUPP, PSUPP, ORDER, ORDER, ORDER, ORDER, LINE, LINE] +
    [LINE, LINE, LINE, LINE, LINE, LINE, LINE, LINE] + [LINE, LINE, CUST, CUST, CUST, CUST, CUST, CUST] +
    [SUPP, SUPP, SUPP, SUPP, SUPP, PART, ORDER, LINE] + [ORDER, NATION, REGION, ORDER, SUPP, SUPP, SUPP, SUPP]
  const BOUNDARIES: seq<nat> :=
    [1, 1, 1, 1, 1, 1, 2, 4] + [4, 8, 1, 1, 2, 1, 7, 7] + [7, 7, 7, 7, 7, 7, 7, 7] + [7, 14, 9, 1, 3, 1, 1, 2] +
    [9, 1, 3, 1, 2, 92, 1, 1] + [1, 2, 2, 1, 1, 1, 1, 1]

  lemma DeclaredOwners(s: int)
    requires IsStream(s)
    ensures StreamTable(s) == OWNERS[s]
  {}

  lemma DeclaredBoundaries(s: int)
    requires IsStream(s)
    ensures Boundary(s) == BOUNDARIES[s]
  {}

  /** The detail table generated along with a table. */
  function Child(t: int): int
  {
    if t == PART || t == PART_PSUPP then PSUPP
    else if t == ORDER || t == ORDER_LINE then LINE
    else NONE
  }

  /** The table whose streams row_stop pads for t, besides its child's. */
  function Master(t: int): int
  {
    if t == ORDER_LINE then ORDER else if t == PART_PSUPP then PART else t
  }

  /** Streams that row_stop pads; tables without a child also match the stream that has no table. */
  predicate Padded(t: int, s: int)
  {
    StreamTable(s) == Master(t) || StreamTable(s) == Child(Master(t))
  }

  // ----- draws skipped per row by the sd_ routines -----

  function SdPart(s: int): nat
  {
    if P_MFG_SD <= s <= P_CNTR_SD then 1
    else if s == P_CMNT_SD then 2
    else if s == P_NAME_SD then 92
    else 0
  }

  function SdLine(child: int, s: int): nat
  {
    if L_QTY_SD <= s <= L_RFLG_SD then 7
    else if s == L_CMNT_SD then 14
    else if child == 1 && (s == O_ODATE_SD || s == O_LCNT_SD) then 1
    else 0
  }

  function SdOrder(s: int): nat
  {
    if s == O_LCNT_SD || s == O_CKEY_SD || s == O_SUPP_SD || s == O_CLRK_SD || s == O_PRIO_SD || s == O_ODATE_SD then 1
    else if s == O_CMNT_SD then 2
    else 0
  }

  function SdPsupp(s: int): nat
  {
    if s == PS_QTY_SD || s == PS_SCST_SD then 4 else if s == PS_CMNT_SD then 8 else 0
  }

  function SdCust(s: int): nat
  {
    if s == C_ADDR_SD then 9
    else if s == C_CMNT_SD then 2
    else if s == C_PHNE_SD then 3
    else if s == C_NTRG_SD || s == C_ABAL_SD || s == C_MSEG_SD then 1
    else 0
  }

  function SdSupp(s: int): nat
  {
    if s == S_ADDR_SD then 9
    else if s == S_CMNT_SD then 2
    else if s == S_PHNE_SD then 3
    else if s == S_NTRG_SD || s == S_ABAL_SD || BBB_JNK_SD <= s <= BBB_OFFSET_SD then 1
    else 0
  }

  /** Tables cut into chunks; nation and region never are. */
  predicate IsChunked(t: int) { PART <= t <= PART_PSUPP }

  /** The skip routine registered for a table. */
  function GenSeed(t: int, child: int, s: int): nat
    requires IsChunked(t)
  {
    if t == PART || t == PART_PSUPP then SdPart(s)
    else if t == PSUPP then SdPsupp(s)
    else if t == SUPP then SdSupp(s)
    else if t == CUST then SdCust(s)
    else if t == ORDER || t == ORDER_LINE then SdOrder(s)
    else SdLine(child, s)
  }

  /** Draws set_state skips per row of t: its own routine, then its child's. */
  function SkipPerRow(t: int, s: int): nat
    requires IsChunked(t)
  {
    GenSeed(t, if t == LINE then 1 else 0, s) + (if Child(t) == NONE then 0 else GenSeed(Child(t), 0, s))
  }

  /** The streams whose values f lists. */
  function Tabulate(f: int -> Live): (v: Streams)
    ensures forall s :: IsStream(s) ==> v[s] == f(s)
  {
    var v := seq(STREAMS, (s: int) => f(s));
    assert forall s | 0 <= s < STREAMS :: v[s] == f(s) && 0 < v[s] < MODULUS;
    v
  }

  /**
   * Each skip routine agrees with the boundaries: it moves a stream of its table by exactly the draws a padded
   * row takes, except the stream HVAR_SD, which belongs to lineitem, is padded and is never skipped.
   */
  lemma SkipIsBoundary(t: int, s: int)
    requires IsChunked(t) && IsStream(s)
    ensures SkipPerRow(t, s) ==
            if Padded(t, s) && s != HVAR_SD && StreamTable(s) != NONE then Boundary(s)
            else if t == LINE && (s == O_ODATE_SD || s == O_LCNT_SD) then 1
            else 0
  {}
}
