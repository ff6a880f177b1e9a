/** Splitting the deletes of an update set over several files (print.c). */
module Segments {
  import opened ModArith
  import Keys
  import Refresh

  /** The keys set u deletes, in order. */
  function DeleteKeys(first: nat, n: nat, u: nat): (ks: seq<nat>)
    ensures |ks| == n
  {
    if n == 0 then [] else DeleteKeys(first, n - 1, u) + [Keys.SparseMacro(first + n - 1, u / 1000)]
  }

  lemma {:induction false} DeleteKeyAt(first: nat, n: nat, u: nat, i: nat)
    requires i < n
    ensures DeleteKeys(first, n, u)[i] == Keys.SparseMacro(first + i, u / 1000)
  {
    hide Keys.SparseMacro;
    if i < n - 1 { DeleteKeyAt(first, n - 1, u, i); }
  }

  /** The keys written are those the refresh runs expect to disappear. */
  lemma {:induction false} DeleteKeysAreDeleted(first: nat, n: nat, u: nat)
    requires first >= 1
    ensures (set k | k in DeleteKeys(first, n, u)) == Refresh.KeyRange(first, first + n - 1, u / 1000 % 4)
  {
    hide Keys.SparseMacro, Keys.MkSparse;
    if n > 0 {
      DeleteKeysAreDeleted(first, n - 1, u);
      Keys.MacroIsMkSparse(first + n - 1, u / 1000);
      var ks := DeleteKeys(first, n - 1, u);
      assert DeleteKeys(first, n, u) == ks + [Keys.SparseMacro(first + n - 1, u / 1000)];
    }
  }

  // ----- files -----

  /** The keys in files of `size` each, the last one with what is left. */
  function Cut(keys: seq<nat>, size: nat): (files: seq<seq<nat>>)
    requires size > 0
    ensures |files| > 0
  {
    if |keys| <= size then [keys] else [keys[..size]] + Cut(keys[size..], size)
  }

  /** The files that `count` keys are split over when `segs` files are asked for. */
  function SplitKeys(keys: seq<nat>, count: nat, segs: nat): seq<seq<nat>>
  {
    if segs == 0 then [keys] else Cut(keys, count / segs + 1)
  }

  function Flatten(files: seq<seq<nat>>): seq<nat>
  {
    if files == [] then [] else files[0] + Flatten(files[1..])
  }

  lemma OneMoreFile(file: seq<nat>, files: seq<seq<nat>>)
    ensures Flatten([file] + files) == file + Flatten(files)
  {
    assert ([file] + files)[1..] == files;
  }

  /** Nothing is lost, added or moved. */
  lemma {:induction false} CutFlattens(keys: seq<nat>, size: nat)
    requires size > 0
    ensures Flatten(Cut(keys, size)) == keys
  {
    if |keys| <= size {
      assert Flatten([keys]) == keys + Flatten([]);
    } else {
      CutFlattens(keys[size..], size);
      OneMoreFile(keys[..size], Cut(keys[size..], size));
      assert keys[..size] + keys[size..] == keys;
    }
  }

  /** All files but the last are full, and the last is not empty if there are keys. */
  lemma {:induction false} CutFull(keys: seq<nat>, size: nat, i: nat)
    requires size > 0 && i < |Cut(keys, size)|
    ensures i < |Cut(keys, size)| - 1 ==> |Cut(keys, size)[i]| == size
    ensures i == |Cut(keys, size)| - 1 ==> |Cut(keys, size)[i]| == |keys| - size * i <= size
    ensures keys != [] ==> |Cut(keys, size)[i]| > 0
    decreases |keys|
  {
    if |keys| > size && i > 0 {
      CutFull(keys[size..], size, i - 1);
      assert size * i == size + size * (i - 1);
    }
  }

  /** The files hold the keys in order and are no more than asked for; all but the last hold one over the even share. */
  lemma SplitFits(keys: seq<nat>, segs: nat)
    ensures Flatten(SplitKeys(keys, |keys|, segs)) == keys
    ensures 1 <= |SplitKeys(keys, |keys|, segs)| <= if segs == 0 then 1 else segs
    ensures segs > 0 ==>
              var files := SplitKeys(keys, |keys|, segs);
              forall i :: 0 <= i < |files| - 1 ==> |files[i]| == |keys| / segs + 1
  {
    if segs == 0 {
      assert Flatten([keys]) == keys + Flatten([]);
    } else {
      var size := |keys| / segs + 1;
      CutFlattens(keys, size);
      var n := |Cut(keys, size)|;
      CutFull(keys, size, n - 1);
      FullFiles(|keys|, segs, n - 1);
      forall i | 0 <= i < n - 1 ensures |Cut(keys, size)[i]| == size { CutFull(keys, size, i); }
    }
  }

  lemma FullFiles(count: nat, segs: nat, m: nat)
    requires segs > 0 && (count / segs + 1) * m <= count
    ensures m < segs
  {
    var per := count / segs;
    assert (per + 1) * segs == per * segs + segs;
    if m >= segs { MulMono(segs, m, per + 1); }
  }

  /** One more key goes to the last file, or to a new one if that is full. */
  lemma {:induction false} CutMore(keys: seq<nat>, size: nat, key: nat)
    requires size > 0
    ensures var files := Cut(keys, size);
            var last := |files| - 1;
            |files[last]| <= size &&
            Cut(keys + [key], size) ==
            if |files[last]| < size then files[last := files[last] + [key]] else files + [[key]]
    decreases |keys|
  {
    var more := keys + [key];
    if |keys| < size {
    } else if |keys| == size {
      assert more[..size] == keys && more[size..] == [key];
    } else {
      CutMore(keys[size..], size, key);
      assert more[..size] == keys[..size] && more[size..] == keys[size..] + [key];
    }
  }

  /** The state pr_drange keeps between calls; files holds every file opened so far. */
  class DeleteWriter {
    var lastNum: int
    var rowsPerSegment: nat
    var rowsThisSegment: nat
    var files: seq<seq<nat>>

    constructor ()
      ensures lastNum == 0 && rowsPerSegment == 0 && files == []
    {
      lastNum, rowsPerSegment, rowsThisSegment, files := 0, 0, 0, [];
    }

    /** The segment size, once it is known, is that of sets with `count` rows. */
    predicate Sized(count: nat, segs: nat)
      reads this
    {
      rowsPerSegment == 0 || (segs > 0 && rowsPerSegment == count / segs + 1)
    }

    /**
     * Writes the delete keys of a new update set. The segment size is fixed by the first set, so all sets must have
     * the same number of rows, as they do.
     */
    method PrDrange(min: nat, count: nat, num: nat, segs: nat)
      requires num > 0 && lastNum != num && Sized(count, segs)
      modifies this
      ensures lastNum == num && Sized(count, segs)
      ensures files == old(files) + SplitKeys(DeleteKeys(min, count, num), count, segs)
    {
      hide Keys.SparseMacro, SplitKeys;
      ghost var before := files;
      ghost var own: seq<seq<nat>> := [[]];
      files := files + [[]];
      lastNum := num;
      rowsThisSegment := 0;
      NothingSplit(count, segs);
      var child, cnt := min, count;
      while cnt > 0
        invariant 0 <= cnt <= count && child == min + (count - cnt) && lastNum == num && Sized(count, segs)
        invariant files == before + own && own == SplitKeys(DeleteKeys(min, count - cnt, num), count, segs)
        invariant |own| > 0 && (segs > 0 ==> rowsThisSegment == |own[|own| - 1]|)
        invariant segs > 0 && cnt < count ==> rowsPerSegment > 0
      {
        var key := Keys.SparseMacro(child, num / 1000);
        SplitMore(DeleteKeys(min, count - cnt, num), count, segs, key);
        own := PutKey(count, segs, cnt, key, before, own);
        child := child + 1;
        cnt := cnt - 1;
      }
    }

    /** One turn of the loop: the key goes to the open file, or to the next one if that is full. */
    method PutKey(count: nat, segs: nat, cnt: nat, key: nat, ghost before: seq<seq<nat>>, ghost own: seq<seq<nat>>)
      returns (ghost own': seq<seq<nat>>)
      requires 0 < cnt <= count && Sized(count, segs) && files == before + own && |own| > 0
      requires segs > 0 ==> rowsThisSegment == |own[|own| - 1]| <= count / segs + 1
      requires segs > 0 && cnt < count ==> rowsPerSegment > 0
      modifies this
      ensures lastNum == old(lastNum) && Sized(count, segs) && (segs > 0 ==> rowsPerSegment > 0)
      ensures files == before + own' && |own'| > 0 && (segs > 0 ==> rowsThisSegment == |own'[|own'| - 1]|)
      ensures var last := |own| - 1;
              own' == if segs == 0 || |own[last]| < count / segs + 1
                      then own[last := own[last] + [key]] else own + [[key]]
    {
      own' := own;
      if segs != 0 {
        if rowsPerSegment == 0 {
          rowsPerSegment := cnt / segs + 1;
        }
        rowsThisSegment := rowsThisSegment + 1;
        if rowsThisSegment > rowsPerSegment {
          files, own' := files + [[]], own + [[]];
          rowsThisSegment := 1;
        }
      }
      files := files[|files| - 1 := files[|files| - 1] + [key]];
      ghost var open := own';
      own' := open[|open| - 1 := open[|open| - 1] + [key]];
      assert files == before + own';
      if |open| > |own| { assert own' == own + [[key]] by { assert [] + [key] == [key]; } }
    }
  }

  lemma NothingSplit(count: nat, segs: nat)
    ensures SplitKeys([], count, segs) == [[]]
  {}

  lemma SplitMore(keys: seq<nat>, count: nat, segs: nat, key: nat)
    ensures var files := SplitKeys(keys, count, segs);
            var last := |files| - 1;
            last >= 0 && (segs > 0 ==> |files[last]| <= count / segs + 1) &&
            SplitKeys(keys + [key], count, segs) ==
            if segs == 0 || |files[last]| < count / segs + 1
            then files[last := files[last] + [key]] else files + [[key]]
  {
    if segs > 0 { CutMore(keys, count / segs + 1, key); }
  }
}
