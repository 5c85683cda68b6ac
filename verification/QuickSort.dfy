/** The sequential sort of one run: quicksort with a median-of-three pivot and unguarded scans,
    falling back to insertion sort, in place on the window of the output queue.  Ranges include
    both ends, as in the source. */
module QuickSort {
  import opened Sorting

  const INSERTIONSIZE := 20

  function Med3(a: int, b: int, c: int): int {
    if a < b then
      if b < c then b else if a < c then c else a
    else
      if b > c then b else if a > c then c else a
  }

  /** At least two of the three are at least the pivot, and at least two at most. */
  lemma Med3IsMedian(a: int, b: int, c: int)
    ensures var m := Med3(a, b, c);
      && (m == a || m == b || m == c)
      && ((a <= m && b <= m) || (a <= m && c <= m) || (b <= m && c <= m))
      && ((a >= m && b >= m) || (a >= m && c >= m) || (b >= m && c >= m))
  {
  }

  /** Exchange two elements and record that the range is permuted. */
  method Exchange(a: array<int>, i: int, j: int, ghost lo: nat, ghost hi: nat)
    requires lo <= i < hi <= a.Length && lo <= j < hi
    modifies a
    ensures a[i] == old(a[j]) && a[j] == old(a[i])
    ensures forall k :: 0 <= k < a.Length && k != i && k != j ==> a[k] == old(a[k])
    ensures RangePerm(old(a[..]), a[..], lo, hi)
  {
    RangeSwap(a[..], i, j, lo, hi);
    ghost var swapped := a[..][i := a[j]][j := a[i]];
    a[i], a[j] := a[j], a[i];
    assert a[..] == swapped;
  }

  /** The unguarded scan from above; `stop` is where it stops at the latest. */
  method ScanDown(a: array<int>, from: int, v: int, ghost stop: int) returns (h: int)
    requires 0 <= stop <= from < a.Length && a[stop] <= v
    ensures stop <= h <= from && a[h] <= v
    ensures forall i :: h < i <= from ==> v < a[i]
  {
    h := from;
    while a[h] > v
      invariant stop <= h <= from
      invariant forall i :: h < i <= from ==> v < a[i]
      decreases h
    {
      h := h - 1;
    }
  }

  method ScanUp(a: array<int>, from: int, v: int, ghost stop: int) returns (l: int)
    requires 0 <= from <= stop < a.Length && v <= a[stop]
    ensures from <= l <= stop && v <= a[l]
    ensures forall i :: from <= i < l ==> a[i] < v
  {
    l := from;
    while a[l] < v
      invariant from <= l <= stop
      invariant forall i :: from <= i < l ==> a[i] < v
      decreases stop - l
    {
      l := l + 1;
    }
  }

  /** Partition around the median of the first, last and middle element.  Neither scan leaves the
      range, and the split point lies strictly inside it, so that both sides shrink. */
  method SeqPart(low: int, high: int, a: array<int>) returns (p: int, ghost pivot: int)
    requires 0 <= low < high < a.Length
    modifies a
    ensures RangePerm(old(a[..]), a[..], low, high + 1)
    ensures low <= p < high
    ensures forall i :: low <= i <= p ==> a[i] <= pivot
    ensures forall i :: p < i <= high ==> pivot <= a[i]
  {
    hide RangePerm, Med3;
    var mid := low + (high - low) / 2;
    var v := Med3(a[low], a[high], a[mid]);
    Med3IsMedian(a[low], a[high], a[mid]);
    pivot := v;
    var currLow, currHigh := low, high;
    // Positions that stop the scans: one not above the pivot, one not below it.
    ghost var stopDown := if a[low] <= v then low else if a[mid] <= v then mid else high;
    ghost var stopUp := if a[low] >= v then low else mid;
    RangeSame(a[..], low, high + 1);
    while true
      invariant low <= currLow <= currHigh + 1 && currHigh <= high
      invariant low <= stopDown <= currHigh && a[stopDown] <= v
      invariant currLow <= stopUp <= high && v <= a[stopUp]
      invariant stopUp < high || currHigh < high
      invariant forall i :: low <= i < currLow ==> a[i] <= v
      invariant forall i :: currHigh < i <= high ==> v <= a[i]
      invariant RangePerm(old(a[..]), a[..], low, high + 1)
      decreases currHigh + 1 - currLow
    {
      currHigh := ScanDown(a, currHigh, v, stopDown);
      currLow := ScanUp(a, currLow, v, stopUp);
      if currLow >= currHigh {
        break;
      }
      stopDown, stopUp := currLow, currHigh;
      ghost var was := a[..];
      Exchange(a, currLow, currHigh, low, high + 1);
      RangeTrans(old(a[..]), was, a[..], low, high + 1);
      currHigh := currHigh - 1;
      currLow := currLow + 1;
    }
    // The other branch of the source's last test is never taken.
    assert currHigh < high;
    p := if currHigh < high then currHigh else currHigh - 1;
  }

  lemma RangeSame(a: seq<int>, lo: nat, hi: nat)
    requires lo <= hi <= |a|
    ensures RangePerm(a, a, lo, hi)
  {
  }

  /** The array with the hole at `p` filled by the element that is being inserted. */
  ghost function Filled(a: seq<int>, p: nat, key: int): seq<int>
    requires p < |a|
  {
    a[p := key]
  }

  lemma HoleMoves(a: seq<int>, p: nat, key: int, lo: nat, hi: nat)
    requires lo < p < hi <= |a|
    ensures RangePerm(Filled(a, p, key), Filled(a[p := a[p - 1]], p - 1, key), lo, hi)
  {
    hide RangePerm;
    var b := Filled(a, p, key);
    RangeSwap(b, p - 1, p, lo, hi);
    assert Filled(a[p := a[p - 1]], p - 1, key) == b[p - 1 := b[p]][p := b[p - 1]];
  }

  /** Sorts the range; does nothing if it has fewer than two elements. */
  method InsertionSort(low: int, high: int, a: array<int>)
    requires 0 <= low <= high + 1 <= a.Length
    modifies a
    ensures RangePerm(old(a[..]), a[..], low, high + 1)
    ensures forall i, j :: low <= i < j <= high ==> a[i] <= a[j]
  {
    hide RangePerm, Filled;
    RangeSame(a[..], low, high + 1);
    var q := low + 1;
    while q <= high
      invariant low + 1 <= q && (q <= high + 1 || low == high + 1 == q - 1)
      invariant RangePerm(old(a[..]), a[..], low, high + 1)
      invariant forall i, j :: low <= i < j < q && j <= high ==> a[i] <= a[j]
    {
      q := Insert(low, q, high, a, old(a[..]));
    }
  }

  /** One round: move the elements above `a[q]` up by one and put it in its place. */
  method Insert(low: int, q: int, high: int, a: array<int>, ghost first: seq<int>) returns (next: int)
    requires 0 <= low < q <= high < a.Length && RangePerm(first, a[..], low, high + 1)
    requires forall i, j :: low <= i < j < q ==> a[i] <= a[j]
    modifies a
    ensures next == q + 1 && RangePerm(first, a[..], low, high + 1)
    ensures forall i, j :: low <= i < j <= q ==> a[i] <= a[j]
  {
    hide RangePerm, Filled;
    var key := a[q];
    var p := q - 1;
    FilledSame(a[..], q);
    while p >= low && a[p] > key
      invariant low - 1 <= p < q
      invariant RangePerm(first, Filled(a[..], p + 1, key), low, high + 1)
      invariant forall i, j :: low <= i < j <= q && i != p + 1 && j != p + 1 ==> a[i] <= a[j]
      invariant forall j :: p + 1 < j <= q ==> key < a[j]
    {
      HoleMoves(a[..], p + 1, key, low, high + 1);
      RangeTrans(first, Filled(a[..], p + 1, key), Filled(a[..][p + 1 := a[p]], p, key), low, high + 1);
      a[p + 1] := a[p];
      p := p - 1;
    }
    FillHole(a[..], p + 1, key);
    a[p + 1] := key;
    next := q + 1;
  }

  lemma FilledSame(a: seq<int>, p: nat)
    requires p < |a|
    ensures Filled(a, p, a[p]) == a
  {
  }

  lemma FillHole(a: seq<int>, p: nat, key: int)
    requires p < |a|
    ensures Filled(a, p, key) == a[p := key]
  {
  }

  /** The part of the range before `lo` is in its final place. */
  ghost predicate Settled(a: seq<int>, low: int, lo: int, high: int)
    requires 0 <= low <= lo <= high + 1 <= |a|
  {
    forall i, j :: low <= i < lo && i < j <= high ==> a[i] <= a[j]
  }

  lemma ValueFrom(a: seq<int>, b: seq<int>, lo: nat, hi: nat, i: nat) returns (j: nat)
    requires RangePerm(a, b, lo, hi) && lo <= i < hi
    ensures lo <= j < hi <= |a| == |b| && a[j] == b[i]
  {
    assert b[lo..hi][i - lo] in multiset(a[lo..hi]);
    var k :| 0 <= k < hi - lo && a[lo..hi][k] == b[i];
    j := lo + k;
  }

  /** Permuting the rest leaves the settled part settled. */
  lemma StillSettled(a: seq<int>, b: seq<int>, low: int, lo: int, high: int)
    requires 0 <= low <= lo <= high + 1 <= |a| && Settled(a, low, lo, high) && RangePerm(a, b, lo, high + 1)
    ensures |b| == |a| && Settled(b, low, lo, high)
  {
    forall i, j | low <= i < lo && i < j <= high
      ensures b[i] <= b[j]
    {
      assert a[..lo][i] == b[..lo][i];
      if j < lo {
        assert a[..lo][j] == b[..lo][j];
      } else {
        var k := ValueFrom(a, b, lo, high + 1, j);
      }
    }
  }

  /** After a partition around `pivot` at `p` and sorting the left side, that side is settled too. */
  lemma LeftSettled(a: seq<int>, b: seq<int>, low: int, lo: int, p: int, high: int, pivot: int)
    requires 0 <= low <= lo <= p < high < |a| && Settled(a, low, lo, high) && RangePerm(a, b, lo, p + 1)
    requires (forall i :: lo <= i <= p ==> a[i] <= pivot) && (forall i :: p < i <= high ==> pivot <= a[i])
    requires forall i, j :: lo <= i < j <= p ==> b[i] <= b[j]
    ensures Settled(b, low, p + 1, high)
  {
    RangeWiden(a, b, lo, lo, p + 1, high + 1);
    StillSettled(a, b, low, lo, high);
    forall i, j | lo <= i <= p && p < j <= high
      ensures b[i] <= b[j]
    {
      var k := ValueFrom(a, b, lo, p + 1, i);
      assert a[p + 1..][j - p - 1] == b[p + 1..][j - p - 1];
    }
  }

  /** The range becomes its sorted permutation and nothing outside it changes. */
  method SeqQuick(low: int, high: int, a: array<int>)
    requires 0 <= low <= high + 1 <= a.Length
    modifies a
    ensures RangePerm(old(a[..]), a[..], low, high + 1)
    ensures forall i, j :: low <= i < j <= high ==> a[i] <= a[j]
    decreases high - low + 1
  {
    hide RangePerm, Settled;
    RangeSame(a[..], low, high + 1);
    NothingSettled(a[..], low, high);
    var lo := low;
    while high - lo >= INSERTIONSIZE
      invariant low <= lo <= high + 1
      invariant RangePerm(old(a[..]), a[..], low, high + 1)
      invariant Settled(a[..], low, lo, high)
    {
      ghost var was := a[..];
      var p, pivot := SeqPart(lo, high, a);
      ghost var parted := a[..];
      StillSettled(was, parted, low, lo, high);
      RangeWiden(was, parted, low, lo, high + 1, high + 1);
      RangeTrans(old(a[..]), was, parted, low, high + 1);
      SeqQuick(lo, p, a);
      LeftSettled(parted, a[..], low, lo, p, high, pivot);
      RangeWiden(parted, a[..], low, lo, p + 1, high + 1);
      RangeTrans(old(a[..]), parted, a[..], low, high + 1);
      lo := p + 1;
    }
    ghost var was := a[..];
    InsertionSort(lo, high, a);
    StillSettled(was, a[..], low, lo, high);
    RangeWiden(was, a[..], low, lo, high + 1, high + 1);
    RangeTrans(old(a[..]), was, a[..], low, high + 1);
    AllSettled(a[..], low, lo, high);
  }

  lemma NothingSettled(a: seq<int>, low: int, high: int)
    requires 0 <= low <= high + 1 <= |a|
    ensures Settled(a, low, low, high)
  {
  }

  lemma AllSettled(a: seq<int>, low: int, lo: int, high: int)
    requires 0 <= low <= lo <= high + 1 <= |a| && Settled(a, low, lo, high)
    requires forall i, j :: lo <= i < j <= high ==> a[i] <= a[j]
    ensures forall i, j :: low <= i < j <= high ==> a[i] <= a[j]
  {
  }

  /** The kernel: one run of `num` elements, sorted in its window. */
  method SequentialSort(run: seq<int>) returns (sorted: seq<int>)
    ensures Sorted(sorted) && Perm(run, sorted)
  {
    var window := new int[|run|](i requires 0 <= i < |run| => run[i]);
    assert window[..] == run;
    SeqQuick(0, |run| - 1, window);
    sorted := window[..];
    assert run[0..|run|] == run && sorted[0..|run|] == sorted;
  }
}
