/** Sorted sequences, their merge, and ranges of an array that are permuted in place. */
module Sorting {

  ghost predicate Sorted(s: seq<int>) {
    forall i, j :: 0 <= i < j < |s| ==> s[i] <= s[j]
  }

  /** Every element of `a` is at most every element of `b`. */
  ghost predicate Below(a: seq<int>, b: seq<int>) {
    forall i, j :: 0 <= i < |a| && 0 <= j < |b| ==> a[i] <= b[j]
  }

  /** Merge two sequences, taking from the first one on a tie. */
  function Merged(a: seq<int>, b: seq<int>): (r: seq<int>)
    ensures |r| == |a| + |b|
    decreases |a| + |b|
  {
    if a == [] then b
    else if b == [] then a
    else if a[0] <= b[0] then [a[0]] + Merged(a[1..], b)
    else [b[0]] + Merged(a, b[1..])
  }

  ghost predicate Perm(a: seq<int>, b: seq<int>) { multiset(a) == multiset(b) }

  lemma {:induction false} MergedPerm(a: seq<int>, b: seq<int>)
    ensures multiset(Merged(a, b)) == multiset(a) + multiset(b)
    decreases |a| + |b|
  {
    if a != [] && b != [] {
      if a[0] <= b[0] {
        MergedPerm(a[1..], b);
        HeadCounts(a);
        HeadCounts(Merged(a, b));
        assert Merged(a, b)[1..] == Merged(a[1..], b);
      } else {
        MergedPerm(a, b[1..]);
        HeadCounts(b);
        HeadCounts(Merged(a, b));
        assert Merged(a, b)[1..] == Merged(a, b[1..]);
      }
    }
  }

  lemma HeadCounts(s: seq<int>)
    requires s != []
    ensures multiset(s) == multiset{s[0]} + multiset(s[1..])
  {
    assert s == [s[0]] + s[1..];
  }

  lemma {:induction false} MergedSorted(a: seq<int>, b: seq<int>)
    requires Sorted(a) && Sorted(b)
    ensures Sorted(Merged(a, b))
    decreases |a| + |b|
  {
    if a != [] && b != [] {
      if a[0] <= b[0] {
        MergedSorted(a[1..], b);
        HeadBelow(a[0], a[1..], b);
      } else {
        MergedSorted(a, b[1..]);
        HeadBelow(b[0], a, b[1..]);
      }
    }
  }

  lemma HeadBelow(x: int, a: seq<int>, b: seq<int>)
    requires forall i :: 0 <= i < |a| ==> x <= a[i]
    requires forall i :: 0 <= i < |b| ==> x <= b[i]
    ensures forall i :: 0 <= i < |Merged(a, b)| ==> x <= Merged(a, b)[i]
  {
    MergedPerm(a, b);
    forall i | 0 <= i < |Merged(a, b)|
      ensures x <= Merged(a, b)[i]
    {
      var v := Merged(a, b)[i];
      assert v in multiset(Merged(a, b));
      assert v in multiset(a) || v in multiset(b);
    }
  }

  lemma GreatestLast(a: seq<int>, b: seq<int>)
    requires Sorted(a) && Perm(a, b) && b != []
    ensures a != [] && b[|b| - 1] <= a[|a| - 1]
  {
    assert b[|b| - 1] in multiset(a);
  }

  /** Sorting has one result: two sorted arrangements of the same elements are equal, from the
      greatest element at the end down to the front. */
  lemma {:induction false} OneSortedOrder(a: seq<int>, b: seq<int>)
    requires Sorted(a) && Sorted(b) && Perm(a, b)
    ensures a == b
    decreases |a|
  {
    assert |a| == |multiset(a)| == |multiset(b)| == |b|;
    if a != [] {
      var n := |a| - 1;
      GreatestLast(a, b);
      GreatestLast(b, a);
      assert a == a[..n] + [a[n]] && b == b[..n] + [b[n]];
      DropLast(a[..n], b[..n], a[n]);
      OneSortedOrder(a[..n], b[..n]);
    }
  }

  lemma DropLast(a: seq<int>, b: seq<int>, x: int)
    requires Perm(a + [x], b + [x])
    ensures Perm(a, b)
  {
    assert multiset(a) == multiset(a + [x]) - multiset{x};
    assert multiset(b) == multiset(b + [x]) - multiset{x};
  }

  lemma SortedConcat(a: seq<int>, b: seq<int>)
    requires Sorted(a) && Sorted(b) && Below(a, b)
    ensures Sorted(a + b)
  {
  }

  // ---------------------------------------------------------------------------------------------
  // Permuting a range
  // ---------------------------------------------------------------------------------------------

  /** `b` is `a` with the range from `lo` up to `hi` permuted and nothing else changed. */
  ghost predicate RangePerm(a: seq<int>, b: seq<int>, lo: nat, hi: nat) {
    && |a| == |b| && lo <= hi <= |a|
    && a[..lo] == b[..lo] && a[hi..] == b[hi..] && Perm(a[lo..hi], b[lo..hi])
  }

  /** Permuting a smaller range permutes the larger one. */
  lemma RangeWiden(a: seq<int>, b: seq<int>, lo: nat, l: nat, h: nat, hi: nat)
    requires RangePerm(a, b, l, h) && lo <= l && h <= hi <= |a|
    ensures RangePerm(a, b, lo, hi)
  {
    assert a[lo..hi] == a[..l][lo..] + a[l..h] + a[h..][..hi - h];
    assert b[lo..hi] == b[..l][lo..] + b[l..h] + b[h..][..hi - h];
    assert a[..lo] == a[..l][..lo] && b[..lo] == b[..l][..lo];
    assert a[hi..] == a[h..][hi - h..] && b[hi..] == b[h..][hi - h..];
  }

  lemma RangeTrans(a: seq<int>, b: seq<int>, c: seq<int>, lo: nat, hi: nat)
    requires RangePerm(a, b, lo, hi) && RangePerm(b, c, lo, hi)
    ensures RangePerm(a, c, lo, hi)
  {
  }

  lemma RangeSwap(a: seq<int>, i: nat, j: nat, lo: nat, hi: nat)
    requires lo <= i < hi <= |a| && lo <= j < hi
    ensures RangePerm(a, a[i := a[j]][j := a[i]], lo, hi)
  {
    var b := a[i := a[j]][j := a[i]];
    var r := a[lo..hi];
    assert b[lo..hi] == r[i - lo := r[j - lo]][j - lo := r[i - lo]];
  }
}
