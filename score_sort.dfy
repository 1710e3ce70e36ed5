/**
 * The in-place sort of `getRecommendation` (recommendationService.ts line
 * 857): `scores.sort((a, b) => b.suitabilityScore - a.suitabilityScore)`.
 * `Array.prototype.sort` is stable, so the result is the one ordering that is
 * non-increasing in score and keeps entries of equal score in their original
 * order; `SortDesc` defines it as a stable insertion sort, and `SortByScore`
 * computes it in place on an array.
 */
module ScoreSort {

  /** One element of the `scores` array: `{ crop, suitabilityScore }`. */
  datatype CropScore = CropScore(crop: string, suitabilityScore: real)

  /** Scores never increase along `xs`. */
  predicate SortedDesc(xs: seq<CropScore>)
  {
    forall i, j :: 0 <= i < j < |xs| ==> xs[i].suitabilityScore >= xs[j].suitabilityScore
  }

  /** The entries of `xs` whose score is `v`, in their order in `xs`. */
  function WithScore(xs: seq<CropScore>, v: real): seq<CropScore>
  {
    if xs == [] then []
    else (if xs[0].suitabilityScore == v then [xs[0]] else []) + WithScore(xs[1..], v)
  }

  /** Puts `x` into the non-increasing `xs` after every entry that scores at least as much. */
  function Insert(x: CropScore, xs: seq<CropScore>): seq<CropScore>
  {
    if xs == [] then [x]
    else if xs[0].suitabilityScore >= x.suitabilityScore then [xs[0]] + Insert(x, xs[1..])
    else [x] + xs
  }

  /** Stable descending sort: insert each entry, left to right, into the sorted prefix. */
  function SortDesc(xs: seq<CropScore>): seq<CropScore>
  {
    if xs == [] then [] else Insert(xs[|xs| - 1], SortDesc(xs[..|xs| - 1]))
  }

  lemma {:induction false} WithScoreAppend(a: seq<CropScore>, b: seq<CropScore>, v: real)
    ensures WithScore(a + b, v) == WithScore(a, v) + WithScore(b, v)
  {
    if a == [] {
      assert a + b == b;
    } else {
      var head := if a[0].suitabilityScore == v then [a[0]] else [];
      assert (a + b)[0] == a[0] && (a + b)[1..] == a[1..] + b;
      WithScoreAppend(a[1..], b, v);
      calc {
        WithScore(a + b, v);
        head + WithScore(a[1..] + b, v);
        head + (WithScore(a[1..], v) + WithScore(b, v));
        (head + WithScore(a[1..], v)) + WithScore(b, v);
      }
    }
  }

  lemma {:induction false} WithScoreNone(xs: seq<CropScore>, v: real)
    requires forall k :: 0 <= k < |xs| ==> xs[k].suitabilityScore != v
    ensures WithScore(xs, v) == []
  {
    if xs != [] {
      WithScoreNone(xs[1..], v);
    }
  }

  lemma SortedTail(xs: seq<CropScore>)
    requires SortedDesc(xs) && xs != []
    ensures SortedDesc(xs[1..])
  {
  }

  /** Inserting adds exactly `x`. */
  lemma {:induction false} InsertMultiset(x: CropScore, xs: seq<CropScore>)
    ensures multiset(Insert(x, xs)) == multiset(xs) + multiset{x}
  {
    if xs != [] {
      assert xs == [xs[0]] + xs[1..];
      if xs[0].suitabilityScore >= x.suitabilityScore {
        InsertMultiset(x, xs[1..]);
      }
    }
  }

  /** Inserting into a non-increasing sequence keeps it non-increasing. */
  lemma {:induction false} InsertSorted(x: CropScore, xs: seq<CropScore>)
    requires SortedDesc(xs)
    ensures SortedDesc(Insert(x, xs))
  {
    if xs != [] && xs[0].suitabilityScore >= x.suitabilityScore {
      var rest := Insert(x, xs[1..]);
      SortedTail(xs);
      InsertSorted(x, xs[1..]);
      InsertMultiset(x, xs[1..]);
      var r := [xs[0]] + rest;
      assert r[1..] == rest;
      forall j | 0 < j < |r| ensures r[0].suitabilityScore >= r[j].suitabilityScore {
        assert r[j] in multiset(rest);
        if r[j] != x {
          assert r[j] in multiset(xs[1..]);
          var k :| 0 <= k < |xs[1..]| && xs[1..][k] == r[j];
          assert xs[k + 1] == r[j];
        }
      }
    }
  }

  lemma WithScoreCons(y: CropScore, ys: seq<CropScore>, v: real)
    ensures WithScore([y] + ys, v) == (if y.suitabilityScore == v then [y] else []) + WithScore(ys, v)
  {
    assert ([y] + ys)[1..] == ys;
  }

  /** Inserting `x` puts it after every entry of equal score and leaves their order alone. */
  lemma {:induction false} InsertStable(x: CropScore, xs: seq<CropScore>, v: real)
    requires SortedDesc(xs)
    ensures WithScore(Insert(x, xs), v) == WithScore(xs, v) + (if x.suitabilityScore == v then [x] else [])
  {
    var mine := if x.suitabilityScore == v then [x] else [];
    if xs == [] {
      WithScoreCons(x, [], v);
    } else if xs[0].suitabilityScore >= x.suitabilityScore {
      var head, tail := xs[0], xs[1..];
      var theirs := if head.suitabilityScore == v then [head] else [];
      assert xs == [head] + tail;
      SortedTail(xs);
      InsertStable(x, tail, v);
      InsertCons(x, head, tail);
      WithScoreCons(head, Insert(x, tail), v);
      WithScoreCons(head, tail, v);
      assert theirs + (WithScore(tail, v) + mine) == (theirs + WithScore(tail, v)) + mine;
    } else {
      WithScoreCons(x, xs, v);
      if x.suitabilityScore == v {
        WithScoreNone(xs, v);
      }
    }
  }

  /** `SortDesc` rearranges its input: the same entries, each as often. */
  lemma {:induction false} SortDescPermutes(xs: seq<CropScore>)
    ensures multiset(SortDesc(xs)) == multiset(xs)
    ensures |SortDesc(xs)| == |xs|
  {
    if xs != [] {
      var init, last := xs[..|xs| - 1], xs[|xs| - 1];
      SortDescPermutes(init);
      InsertMultiset(last, SortDesc(init));
      assert xs == init + [last];
    }
    assert |multiset(SortDesc(xs))| == |SortDesc(xs)|;
  }

  /** `SortDesc` orders by non-increasing score. */
  lemma {:induction false} SortDescSorted(xs: seq<CropScore>)
    ensures SortedDesc(SortDesc(xs))
  {
    if xs != [] {
      SortDescSorted(xs[..|xs| - 1]);
      InsertSorted(xs[|xs| - 1], SortDesc(xs[..|xs| - 1]));
    }
  }

  /** `SortDesc` is stable: the entries of any one score keep their input order. */
  lemma {:induction false} SortDescStable(xs: seq<CropScore>, v: real)
    ensures WithScore(SortDesc(xs), v) == WithScore(xs, v)
  {
    if xs != [] {
      var init, last := xs[..|xs| - 1], xs[|xs| - 1];
      SortDescSorted(init);
      SortDescStable(init, v);
      InsertStable(last, SortDesc(init), v);
      assert xs == init + [last];
      WithScoreAppend(init, [last], v);
      assert [last][1..] == [];
    }
  }

  /** An entry that scores at least as much as every other and comes first stays first. */
  lemma {:induction false} SortDescKeepsFirstBest(xs: seq<CropScore>)
    requires xs != []
    requires forall j :: 0 <= j < |xs| ==> xs[j].suitabilityScore <= xs[0].suitabilityScore
    ensures SortDesc(xs) != [] && SortDesc(xs)[0] == xs[0]
  {
    var init, last := xs[..|xs| - 1], xs[|xs| - 1];
    if init == [] {
      assert SortDesc(init) == [];
    } else {
      SortDescKeepsFirstBest(init);
    }
  }

  /** Inserting behind a head that scores at least as much keeps the head. */
  lemma InsertCons(x: CropScore, y: CropScore, ys: seq<CropScore>)
    requires y.suitabilityScore >= x.suitabilityScore
    ensures Insert(x, [y] + ys) == [y] + Insert(x, ys)
  {
    assert ([y] + ys)[1..] == ys;
  }

  /** Where `Insert` puts `x`: after the entries scoring at least as much, before the first scoring less. */
  lemma {:induction false} InsertAt(x: CropScore, xs: seq<CropScore>, j: nat)
    requires j <= |xs|
    requires forall k :: 0 <= k < j ==> xs[k].suitabilityScore >= x.suitabilityScore
    requires j == |xs| || xs[j].suitabilityScore < x.suitabilityScore
    ensures Insert(x, xs) == xs[..j] + [x] + xs[j..]
  {
    if j == 0 {
      assert xs[..0] + [x] + xs[0..] == [x] + xs;
    } else {
      var tail := xs[1..];
      InsertAt(x, tail, j - 1);
      var left, right := tail[..j - 1], tail[j - 1..];
      assert xs == [xs[0]] + tail;
      InsertCons(x, xs[0], tail);
      assert xs[..j] == [xs[0]] + left;
      assert right == xs[j..];
      assert [xs[0]] + (left + [x] + right) == ([xs[0]] + left) + [x] + right;
    }
  }

  /** `x` dropped into the gap at `j` of a non-increasing `sorted` is `Insert`'s result. */
  lemma ShiftedIsInsert(b: seq<CropScore>, sorted: seq<CropScore>, x: CropScore, j: nat)
    requires SortedDesc(sorted) && j <= |sorted| && |b| == |sorted| + 1
    requires j == 0 || sorted[j - 1].suitabilityScore >= x.suitabilityScore
    requires j == |sorted| || sorted[j].suitabilityScore < x.suitabilityScore
    requires b[..j] == sorted[..j] && b[j] == x && b[j + 1..] == sorted[j..]
    ensures b == Insert(x, sorted)
  {
    assert forall k :: 0 <= k < j ==> sorted[k].suitabilityScore >= x.suitabilityScore by {
      if j > 0 {
        assert forall k :: 0 <= k < j ==> sorted[k].suitabilityScore >= sorted[j - 1].suitabilityScore;
      }
    }
    InsertAt(x, sorted, j);
    assert b == b[..j] + [b[j]] + b[j + 1..];
  }

  /**
   * Shifts `a[j..i]` one place right, for the smallest `j` such that every
   * entry of `a[j..i]` scores less than `x`; `a[i]` is overwritten and
   * `a[j]` is left for the caller.
   */
  method ShiftLower(a: array<CropScore>, i: nat, x: CropScore) returns (j: nat)
    requires i < a.Length
    modifies a
    ensures j <= i
    ensures a[..j] == old(a[..j])
    ensures a[j + 1..i + 1] == old(a[j..i])
    ensures a[i + 1..] == old(a[i + 1..])
    ensures j == 0 || a[j - 1].suitabilityScore >= x.suitabilityScore
    ensures forall k :: j <= k < i ==> old(a[k]).suitabilityScore < x.suitabilityScore
  {
    ghost var a0 := a[..];
    j := i;
    while j > 0 && a[j - 1].suitabilityScore < x.suitabilityScore
      invariant 0 <= j <= i
      invariant a[..j] == old(a[..j])
      invariant a[j + 1..i + 1] == old(a[j..i])
      invariant a[i + 1..] == old(a[i + 1..])
      invariant forall k :: j <= k < i ==> a0[k].suitabilityScore < x.suitabilityScore
    {
      BelowExtend(a0, j, i, x);
      a[j] := a[j - 1];
      j := j - 1;
    }
  }

  /** Extends the run of entries scoring below `x` one place to the left. */
  lemma BelowExtend(s: seq<CropScore>, j: nat, i: nat, x: CropScore)
    requires 0 < j <= i <= |s| && s[j - 1].suitabilityScore < x.suitabilityScore
    requires forall k :: j <= k < i ==> s[k].suitabilityScore < x.suitabilityScore
    ensures forall k :: j - 1 <= k < i ==> s[k].suitabilityScore < x.suitabilityScore
  {
  }

  /**
   * One step of the insertion sort: with `a[..i]` non-increasing, shifts the
   * entries that score less than `a[i]` one place right and drops `a[i]` into
   * the gap.
   */
  method InsertInPlace(a: array<CropScore>, i: nat)
    requires i < a.Length && SortedDesc(a[..i])
    modifies a
    ensures a[..i + 1] == Insert(old(a[i]), old(a[..i]))
    ensures a[i + 1..] == old(a[i + 1..])
  {
    ghost var sorted := a[..i];
    var x := a[i];
    var j := ShiftLower(a, i, x);
    ghost var shifted := a[..];
    assert shifted[..j] == sorted[..j];
    assert shifted[j + 1..i + 1] == sorted[j..];
    a[j] := x;
    ghost var b := a[..i + 1];
    assert b[..j] == shifted[..j];
    assert b[j + 1..] == shifted[j + 1..i + 1];
    ShiftedIsInsert(b, sorted, x, j);
  }

  /** Sorts `a` in place, by insertion, into `SortDesc` of its old contents. */
  method SortByScore(a: array<CropScore>)
    modifies a
    ensures a[..] == SortDesc(old(a[..]))
  {
    var i := 0;
    while i < a.Length
      invariant 0 <= i <= a.Length
      invariant a[..i] == SortDesc(old(a[..])[..i])
      invariant a[i..] == old(a[..])[i..]
    {
      SortDescSorted(old(a[..])[..i]);
      InsertInPlace(a, i);
      assert old(a[..])[..i + 1][..i] == old(a[..])[..i];
      i := i + 1;
    }
    assert old(a[..])[..a.Length] == old(a[..]);
  }
}
