/** The in-place shuffle and what it can produce (permute.c, bm_utils.c). */
module Shuffle {

  function Swap<T>(a: seq<T>, i: nat, j: nat): seq<T>
    requires i < |a| && j < |a|
  {
    a[i := a[j]][j := a[i]]
  }

  /** One draw per position: entry i of js says which element from position i on goes to position i. */
  predicate IsDraws(js: seq<int>, c: nat)
  {
    |js| <= c && forall i :: 0 <= i < |js| ==> i <= js[i] < c
  }

  /** a after the swaps that js calls for. */
  function Permuted<T>(a: seq<T>, js: seq<int>): (b: seq<T>)
    requires IsDraws(js, |a|)
    ensures |b| == |a|
    decreases |js|
  {
    if js == [] then a else
      var k := |js| - 1;
      Swap(Permuted(a, js[..k]), k, js[k])
  }

  function Identity(c: nat): (a: seq<int>)
    ensures |a| == c && forall i :: 0 <= i < c ==> a[i] == i
  {
    if c == 0 then [] else Identity(c - 1) + [c - 1]
  }

  predicate Distinct<T(==)>(a: seq<T>)
  {
    forall i, j :: 0 <= i < j < |a| ==> a[i] != a[j]
  }

  // ----- what a turn does -----

  /** Turn i takes the element its draw points at then, and later turns leave it where it is. */
  lemma {:induction false} TurnFills<T>(a: seq<T>, js: seq<int>, i: nat)
    requires IsDraws(js, |a|) && i < |js|
    ensures Permuted(a, js)[i] == Permuted(a, js[..i])[js[i]]
    decreases |js|
  {
    var k := |js| - 1;
    if i < k {
      TurnFills(a, js[..k], i);
      assert js[..k][..i] == js[..i];
    }
  }

  /** A place that no turn has filled or drawn holds what it held. */
  lemma {:induction false} TurnsSpare<T>(a: seq<T>, js: seq<int>, p: nat)
    requires IsDraws(js, |a|) && |js| <= p < |a| && p !in js
    ensures Permuted(a, js)[p] == a[p]
    decreases |js|
  {
    if js != [] {
      var k := |js| - 1;
      TurnsSpare(a, js[..k], p);
      assert js[k] in js;
    }
  }

  /** So a draw that points past all turns, and at a place not drawn before, yields the element of that place. */
  lemma FirstDrawn<T>(a: seq<T>, js: seq<int>, i: nat)
    requires IsDraws(js, |a|) && i < |js| && js[i] !in js[..i]
    ensures Permuted(a, js)[i] == a[js[i]]
  {
    TurnFills(a, js, i);
    TurnsSpare(a, js[..i], js[i]);
  }

  // ----- the result is a rearrangement -----

  lemma SwapKeeps<T>(a: seq<T>, i: nat, j: nat)
    requires i < |a| && j < |a|
    ensures multiset(Swap(a, i, j)) == multiset(a)
  {}

  /** Whatever is drawn, nothing is lost, added or repeated. */
  lemma {:induction false} PermutedKeeps<T>(a: seq<T>, js: seq<int>)
    requires IsDraws(js, |a|)
    ensures multiset(Permuted(a, js)) == multiset(a)
    decreases |js|
  {
    if js != [] {
      var k := |js| - 1;
      PermutedKeeps(a, js[..k]);
      SwapKeeps(Permuted(a, js[..k]), k, js[k]);
    }
  }

  lemma {:induction false} PermutedDistinct<T>(a: seq<T>, js: seq<int>)
    requires IsDraws(js, |a|) && Distinct(a)
    ensures Distinct(Permuted(a, js))
    decreases |js|
  {
    if js != [] {
      PermutedDistinct(a, js[..|js| - 1]);
    }
  }

  // ----- draws and arrangements correspond one to one -----

  /** The swaps of positions i, i + 1, ... by the draws js, first to last. */
  function PermutedFrom<T>(a: seq<T>, i: nat, js: seq<int>): (b: seq<T>)
    requires i + |js| <= |a| && forall k :: 0 <= k < |js| ==> i + k <= js[k] < |a|
    ensures |b| == |a|
    decreases |js|
  {
    if js == [] then a else PermutedFrom(Swap(a, i, js[0]), i + 1, js[1..])
  }

  lemma {:induction false} FromSnoc<T>(a: seq<T>, i: nat, js: seq<int>, j: int)
    requires i + |js| < |a| && i + |js| <= j < |a| && forall k :: 0 <= k < |js| ==> i + k <= js[k] < |a|
    ensures PermutedFrom(a, i, js + [j]) == Swap(PermutedFrom(a, i, js), i + |js|, j)
    decreases |js|
  {
    if js != [] {
      assert (js + [j])[1..] == js[1..] + [j];
      FromSnoc(Swap(a, i, js[0]), i + 1, js[1..], j);
    }
  }

  lemma {:induction false} BothWays<T>(a: seq<T>, js: seq<int>)
    requires IsDraws(js, |a|)
    ensures Permuted(a, js) == PermutedFrom(a, 0, js)
    decreases |js|
  {
    if js != [] {
      var k := |js| - 1;
      BothWays(a, js[..k]);
      FromSnoc(a, 0, js[..k], js[k]);
      assert js == js[..k] + [js[k]];
    }
  }

  /** Positions that have been filled stay as they are. */
  lemma {:induction false} FilledStays<T>(a: seq<T>, i: nat, js: seq<int>, p: nat)
    requires i + |js| <= |a| && (forall k :: 0 <= k < |js| ==> i + k <= js[k] < |a|) && p < i <= |a|
    ensures PermutedFrom(a, i, js)[p] == a[p]
    decreases |js|
  {
    if js != [] { FilledStays(Swap(a, i, js[0]), i + 1, js[1..], p); }
  }

  lemma {:induction false} FromInjective<T>(a: seq<T>, i: nat, js: seq<int>, ks: seq<int>)
    requires Distinct(a) && |js| == |ks| && i + |js| <= |a|
    requires forall k :: 0 <= k < |js| ==> i + k <= js[k] < |a| && i + k <= ks[k] < |a|
    requires PermutedFrom(a, i, js) == PermutedFrom(a, i, ks)
    ensures js == ks
    decreases |js|
  {
    if js != [] {
      var b, c := Swap(a, i, js[0]), Swap(a, i, ks[0]);
      FilledStays(b, i + 1, js[1..], i);
      FilledStays(c, i + 1, ks[1..], i);
      assert a[js[0]] == a[ks[0]];
      assert js[0] == ks[0];
      FromInjective(b, i + 1, js[1..], ks[1..]);
    }
  }

  lemma SwapFills<T>(a: seq<T>, i: nat, j: nat)
    requires i <= j < |a|
    ensures Swap(a, i, j)[..i + 1] == a[..i] + [a[j]]
  {}

  lemma {:induction false} FromOnto<T>(a: seq<T>, i: nat, b: seq<T>) returns (js: seq<int>)
    requires i <= |a| == |b| && multiset(a) == multiset(b) && a[..i] == b[..i]
    ensures |js| == |a| - i && forall k :: 0 <= k < |js| ==> i + k <= js[k] < |a|
    ensures PermutedFrom(a, i, js) == b
    decreases |a| - i
  {
    if i == |a| {
      js := [];
      assert a == a[..i] && b == b[..i];
    } else {
      var j := Position(a, i, b);
      var c := Swap(a, i, j);
      SwapKeeps(a, i, j);
      SwapFills(a, i, j);
      assert b[..i + 1] == b[..i] + [b[i]];
      hide Swap;
      var rest := FromOnto(c, i + 1, b);
      js := [j] + rest;
      assert js[1..] == rest;
    }
  }

  /** Where b's next element sits among the positions not filled yet. */
  lemma Position<T>(a: seq<T>, i: nat, b: seq<T>) returns (j: nat)
    requires i < |a| == |b| && multiset(a) == multiset(b) && a[..i] == b[..i]
    ensures i <= j < |a| && a[j] == b[i]
  {
    assert a == a[..i] + a[i..] && b == b[..i] + b[i..];
    assert multiset(a[i..]) == multiset(a) - multiset(a[..i]);
    assert multiset(b[i..]) == multiset(b) - multiset(b[..i]);
    assert b[i] in multiset(b[i..]) by { assert b[i..][0] == b[i]; }
    assert b[i] in a[i..];
    var k :| 0 <= k < |a| - i && a[i..][k] == b[i];
    j := i + k;
  }

  /** Different complete draw sequences give different arrangements of distinct elements. */
  lemma ShuffleInjective<T>(a: seq<T>, js: seq<int>, ks: seq<int>)
    requires Distinct(a) && |js| == |ks| == |a| && IsDraws(js, |a|) && IsDraws(ks, |a|)
    ensures Permuted(a, js) == Permuted(a, ks) <==> js == ks
  {
    BothWays(a, js);
    BothWays(a, ks);
    if Permuted(a, js) == Permuted(a, ks) { FromInjective(a, 0, js, ks); }
  }

  /** And every arrangement comes from one: the shuffle can produce all of them. */
  lemma ShuffleOnto<T>(a: seq<T>, b: seq<T>) returns (js: seq<int>)
    requires multiset(a) == multiset(b)
    ensures |js| == |a| && IsDraws(js, |a|) && Permuted(a, js) == b
  {
    assert |a| == |multiset(a)| == |b|;
    js := FromOnto(a, 0, b);
    BothWays(a, js);
  }
}
