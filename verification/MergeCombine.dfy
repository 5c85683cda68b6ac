/** Splitting the merge of two sorted chunks into independent merge commands, and executing them. */
module MergeCombine {
  import opened Common
  import opened Sorting

  /** `place` is the queue the data is in (for combining) or goes to (for merging). */
  datatype Command = Command(chunk1: nat, chunk2: nat, place: nat)

  function Size(c: Command): nat { c.chunk1 + c.chunk2 }

  function Total(cmds: seq<Command>): nat {
    if cmds == [] then 0 else Size(cmds[0]) + Total(cmds[1..])
  }

  /** What the merge kernel makes of the data of one command. */
  function MergeOne(c: Command, d: seq<int>): seq<int>
    requires |d| == Size(c)
  {
    Merged(d[..c.chunk1], d[c.chunk1..])
  }

  /** Executing commands one after another on a FIFO queue of data. */
  function MergeAll(cmds: seq<Command>, d: seq<int>): (r: seq<int>)
    requires |d| == Total(cmds)
    ensures |r| == |d|
    decreases |cmds|
  {
    if cmds == [] then []
    else MergeOne(cmds[0], d[..Size(cmds[0])]) + MergeAll(cmds[1..], d[Size(cmds[0])..])
  }

  lemma {:induction false} TotalAppend(cmds: seq<Command>, c: Command)
    ensures Total(cmds + [c]) == Total(cmds) + Size(c)
    decreases |cmds|
  {
    if cmds != [] {
      assert (cmds + [c])[1..] == cmds[1..] + [c];
      TotalAppend(cmds[1..], c);
    } else {
      assert (cmds + [c])[1..] == [];
    }
  }

  lemma SumAssoc(a: seq<int>, b: seq<int>, c: seq<int>)
    ensures (a + b) + c == a + (b + c)
  {
  }

  lemma {:induction false} MergeAllAppend(cmds: seq<Command>, d: seq<int>, c: Command, e: seq<int>)
    requires |d| == Total(cmds) && |e| == Size(c)
    ensures Total(cmds + [c]) == |d + e| && MergeAll(cmds + [c], d + e) == MergeAll(cmds, d) + MergeOne(c, e)
    decreases |cmds|
  {
    hide MergeOne;
    TotalAppend(cmds, c);
    var all := cmds + [c];
    if cmds == [] {
      assert all[1..] == [] && all[0] == c;
      assert d + e == e && e[..Size(c)] == e && e[Size(c)..] == [];
      assert MergeAll(all, e) == MergeOne(c, e) + [];
    } else {
      hide MergeAll;
      var n := Size(cmds[0]);
      assert all[1..] == cmds[1..] + [c] && all[0] == cmds[0];
      MergeAllAppend(cmds[1..], d[n..], c, e);
      assert (d + e)[..n] == d[..n] && (d + e)[n..] == d[n..] + e;
      MergeAllFirst(all, d + e);
      MergeAllFirst(cmds, d);
      SumAssoc(MergeOne(cmds[0], d[..n]), MergeAll(cmds[1..], d[n..]), MergeOne(c, e));
    }
  }

  lemma MergeAllFirst(cmds: seq<Command>, d: seq<int>)
    requires cmds != [] && |d| == Total(cmds)
    ensures var n := Size(cmds[0]);
      n <= |d| && MergeAll(cmds, d) == MergeOne(cmds[0], d[..n]) + MergeAll(cmds[1..], d[n..])
  {
  }

  /** The index binsplit returns: the greatest one whose element is below `val`; if there is none,
      `low` when the first element is `val`, and `low - 1` otherwise. */
  ghost predicate SplitsAt(data: seq<int>, low: int, high: int, val: int, r: int)
    requires 0 <= low <= high + 1 <= |data|
  {
    && low - 1 <= r <= high
    && (r > low ==> data[r] < val) && (r == low ==> data[r] <= val)
    && (r < low <= high ==> val < data[low]) && (low <= r < high ==> val <= data[r + 1])
  }

  /** The index that binsplit's comment names: one that holds the greatest element up to `val`, or
      `low - 1` if all elements are greater. */
  ghost predicate HoldsGreatest(data: seq<int>, low: int, high: int, val: int, r: int)
    requires 0 <= low <= high + 1 <= |data|
  {
    if r == low - 1 then forall i :: low <= i <= high ==> data[i] > val
    else low <= r <= high && data[r] <= val && forall i :: low <= i <= high && data[i] <= val ==> data[i] <= data[r]
  }

  /** It returns the index of its comment if and only if `val` does not occur, or no element is less. */
  lemma BinSplitExact(data: seq<int>, low: int, high: int, val: int, r: int)
    requires 0 <= low <= high + 1 <= |data| && Sorted(data[low..high + 1]) && SplitsAt(data, low, high, val, r)
    ensures HoldsGreatest(data, low, high, val, r) <==>
      (low <= high ==> data[low] >= val || val !in data[low..high + 1])
  {
    SortedAt(data, low, high + 1);
    var range := data[low..high + 1];
    assert forall i :: low <= i <= high ==> data[i] == range[i - low] && data[i] in range;
  }

  /** The smallest input on which it does not. */
  lemma BinSplitMisses(r: int)
    requires SplitsAt([1, 2], 0, 1, 2, r)
    ensures r == 0 && HoldsGreatest([1, 2], 0, 1, 2, 1) && !HoldsGreatest([1, 2], 0, 1, 2, r)
  {
    assert [1, 2][1] == 2;
  }

  method BinSplit(val: int, low: int, high: int, data: seq<int>) returns (r: int)
    requires 0 <= low <= high + 1 <= |data| && Sorted(data[low..high + 1])
    ensures SplitsAt(data, low, high, val, r)
    ensures forall i :: low <= i <= r ==> data[i] <= val
    ensures forall i :: r < i <= high ==> val <= data[i]
  {
    if low > high {
      return high;
    }
    var lo, hi := low, high;
    SortedAt(data, low, high + 1);
    while lo != hi
      invariant low <= lo <= hi <= high
      invariant lo > low ==> data[lo] < val
      invariant hi < high ==> val <= data[hi + 1]
      decreases hi - lo
    {
      var mid := lo + (hi - lo + 1) / 2;
      if val <= data[mid] {
        hi := mid - 1;
      } else {
        lo := mid;
      }
    }
    r := if data[lo] > val then lo - 1 else lo;
  }

  lemma SortedAt(data: seq<int>, lo: nat, hi: nat)
    requires lo <= hi <= |data| && Sorted(data[lo..hi])
    ensures forall i, j :: lo <= i <= j < hi ==> data[i] <= data[j]
  {
    forall i, j | lo <= i <= j < hi
      ensures data[i] <= data[j]
    {
      assert data[i] == data[lo..hi][i - lo] && data[j] == data[lo..hi][j - lo];
    }
  }

  /** `out` and the merge of what is left make up the whole merge. */
  ghost predicate Progress(out: seq<int>, a: seq<int>, b: seq<int>, i: nat, j: nat)
    requires i <= |a| && j <= |b|
  {
    out + Merged(a[i..], b[j..]) == Merged(a, b)
  }

  lemma ProgressStart(a: seq<int>, b: seq<int>)
    ensures Progress([], a, b, 0, 0)
  {
    assert a[0..] == a && b[0..] == b;
  }

  lemma ProgressStep(out: seq<int>, a: seq<int>, b: seq<int>, i: nat, j: nat)
    requires i < |a| && j < |b| && Progress(out, a, b, i, j)
    ensures if a[i] <= b[j] then Progress(out + [a[i]], a, b, i + 1, j) else Progress(out + [b[j]], a, b, i, j + 1)
  {
    assert a[i..][1..] == a[i + 1..] && b[j..][1..] == b[j + 1..];
    var v := if a[i] <= b[j] then a[i] else b[j];
    var rest := if a[i] <= b[j] then Merged(a[i + 1..], b[j..]) else Merged(a[i..], b[j + 1..]);
    assert out + ([v] + rest) == (out + [v]) + rest;
  }

  lemma ProgressEnd(out: seq<int>, a: seq<int>, b: seq<int>, i: nat, j: nat)
    requires i <= |a| && j <= |b| && Progress(out, a, b, i, j)
    ensures i == |a| ==> out + b[j..] == Merged(a, b)
    ensures j == |b| ==> out + a[i..] == Merged(a, b)
  {
  }

  method CopyRest(data: seq<int>, from: nat, end: int, out: seq<int>) returns (r: seq<int>)
    requires from <= end + 1 <= |data|
    ensures r == out + data[from..end + 1]
  {
    r := out;
    var i := from;
    while i <= end
      invariant from <= i <= end + 1 && r == out + data[from..i]
    {
      r := r + [data[i]];
      i := i + 1;
    }
  }

  /** The merge kernel: one command's data, merged element by element. */
  method Merge(c: Command, data: seq<int>) returns (out: seq<int>)
    requires c.chunk1 > 0 && |data| == Size(c)
    ensures out == MergeOne(c, data)
  {
    hide Progress;
    var end1, end2 := c.chunk1 - 1, |data| - 1;
    ghost var a, b := data[..c.chunk1], data[c.chunk1..];
    var i1, i2 := 0, c.chunk1;
    ProgressStart(a, b);
    out := [];
    if c.chunk2 == 0 {
      out := CopyRest(data, i1, end1, out);
      ProgressEnd([], a, b, 0, 0);
      assert [] + a[0..] == [] + data[0..end1 + 1];
      return;
    }
    while true
      invariant 0 <= i1 <= end1 < i2 <= end2 && Progress(out, a, b, i1, i2 - c.chunk1)
      decreases end1 + end2 - i1 - i2
    {
      ProgressStep(out, a, b, i1, i2 - c.chunk1);
      var v1, v2 := data[i1], data[i2];
      if v1 <= v2 {
        out := out + [v1];
        i1 := i1 + 1;
        if i1 > end1 {
          ProgressEnd(out, a, b, i1, i2 - c.chunk1);
          assert data[i2..end2 + 1] == b[i2 - c.chunk1..];
          out := CopyRest(data, i2, end2, out);
          break;
        }
      } else {
        out := out + [v2];
        i2 := i2 + 1;
        if i2 > end2 {
          ProgressEnd(out, a, b, i1, i2 - c.chunk1);
          assert data[i1..end1 + 1] == a[i1..];
          out := CopyRest(data, i1, end1, out);
          break;
        }
      }
    }
  }

  // ---------------------------------------------------------------------------------------------
  // The combine kernel
  // ---------------------------------------------------------------------------------------------

  /** `d` is the sorted start of the whole merge: all of `a` up to `x` and of `b` up to `y`. */
  ghost predicate Part(d: seq<int>, a: seq<int>, b: seq<int>, x: nat, y: nat) {
    && x <= |a| && y <= |b| && Sorted(d) && multiset(d) == multiset(a[..x]) + multiset(b[..y])
    && Below(d, a[x..]) && Below(d, b[y..])
  }

  /** A piece that is below everything after it extends the sorted start. */
  lemma PartStep(d: seq<int>, a: seq<int>, b: seq<int>, x: nat, y: nat, x': nat, y': nat)
    requires Part(d, a, b, x, y) && x <= x' <= |a| && y <= y' <= |b| && Sorted(a) && Sorted(b)
    requires Below(b[y..y'], a[x'..]) && Below(a[x..x'], b[y'..])
    ensures Part(d + Merged(a[x..x'], b[y..y']), a, b, x', y')
  {
    hide Sorted, Below, Merged;
    var p, q := a[x..x'], b[y..y'];
    var m := Merged(p, q);
    SortedSlice(a, x, x');
    SortedSlice(b, y, y');
    MergedPerm(p, q);
    MergedSorted(p, q);
    assert a[..x'] == a[..x] + p && b[..y'] == b[..y] + q;
    BelowMerged(d, p, q, a, b, x, y);
    SortedConcat(d, m);
    MergedBelow(p, q, a[x'..]);
    MergedBelow(p, q, b[y'..]);
    BelowConcat(d, m, a, x, x');
    BelowConcat(d, m, b, y, y');
  }

  lemma SortedSlice(a: seq<int>, x: nat, x': nat)
    requires Sorted(a) && x <= x' <= |a|
    ensures Sorted(a[x..x']) && Below(a[x..x'], a[x'..])
  {
  }

  lemma BelowConcat(d: seq<int>, m: seq<int>, a: seq<int>, x: nat, x': nat)
    requires x <= x' <= |a| && Below(d, a[x..]) && Below(m, a[x'..])
    ensures Below(d + m, a[x'..])
  {
    assert a[x'..] == a[x..][x' - x..];
  }

  lemma BelowMerged(d: seq<int>, p: seq<int>, q: seq<int>, a: seq<int>, b: seq<int>, x: nat, y: nat)
    requires x <= |a| && y <= |b| && Below(d, a[x..]) && Below(d, b[y..])
    requires p <= a[x..] && q <= b[y..]
    ensures Below(d, Merged(p, q))
  {
    hide Merged;
    MergedPerm(p, q);
    forall i, j | 0 <= i < |d| && 0 <= j < |Merged(p, q)|
      ensures d[i] <= Merged(p, q)[j]
    {
      var v := Merged(p, q)[j];
      assert v in multiset(p) + multiset(q);
      if v in multiset(p) {
        var k :| 0 <= k < |p| && p[k] == v;
        assert a[x..][k] == v;
      } else {
        assert v in multiset(q);
        var k :| 0 <= k < |q| && q[k] == v;
        assert b[y..][k] == v;
      }
    }
  }

  lemma MergedBelow(p: seq<int>, q: seq<int>, rest: seq<int>)
    requires Below(p, rest) && Below(q, rest)
    ensures Below(Merged(p, q), rest)
  {
    MergedPerm(p, q);
    forall i, j | 0 <= i < |Merged(p, q)| && 0 <= j < |rest|
      ensures Merged(p, q)[i] <= rest[j]
    {
      var v := Merged(p, q)[i];
      assert v in multiset(p) + multiset(q);
      if v in multiset(p) {
        var k :| 0 <= k < |p| && p[k] == v;
      } else {
        assert v in multiset(q);
        var k :| 0 <= k < |q| && q[k] == v;
      }
    }
  }

  /** The whole merge is the only complete sorted start. */
  lemma PartComplete(d: seq<int>, a: seq<int>, b: seq<int>)
    requires Part(d, a, b, |a|, |b|) && Sorted(a) && Sorted(b)
    ensures d == Merged(a, b)
  {
    assert a[..|a|] == a && b[..|b|] == b;
    MergedPerm(a, b);
    MergedSorted(a, b);
    OneSortedOrder(d, Merged(a, b));
  }

  /** The ends tried for a piece of the first chunk, in steps of `half`. */
  function EndTried(low1: int, end1: int, half: nat, k: nat): int {
    if k == 0 then Min(low1 + half - 1, end1) else Min(EndTried(low1, end1, half, k - 1) + half, end1)
  }

  /** A piece ending at `end` takes nothing from the second chunk, and could be longer. */
  predicate Skipped(data: seq<int>, end: int, end1: int, low2: int, end2: int)
    requires 0 <= end <= end1 < low2 <= end2 + 1 == |data|
  {
    end < end1 && (low2 > end2 || data[end] < data[low2])
  }

  lemma {:induction false} EndsInside(low1: int, end1: int, half: nat, k: nat)
    requires half >= 1 && low1 <= end1
    ensures low1 <= EndTried(low1, end1, half, k) <= end1
  {
    if k > 0 {
      EndsInside(low1, end1, half, k - 1);
    }
  }

  /** All ends tried before the one numbered `k` were skipped. */
  ghost predicate EarlierSkipped(data: seq<int>, low1: int, end1: int, low2: int, end2: int, half: nat, k: nat)
    requires half >= 1 && 0 <= low1 <= end1 < low2 <= end2 + 1 == |data|
  {
    forall j: nat :: j < k ==>
      (EndsInside(low1, end1, half, j); Skipped(data, EndTried(low1, end1, half, j), end1, low2, end2))
  }

  /** The next piece of both chunks ends at the first end tried that is not skipped, and takes of the
      second chunk what binsplit cuts off there, or everything once the first chunk ends. */
  ghost predicate IsPiece(data: seq<int>, low1: int, low2: int, end1: int, end2: int, half: nat, high1: int, high2: int)
    requires half >= 1 && 0 <= low1 <= end1 < low2 <= end2 + 1 == |data|
  {
    && low1 <= high1 <= end1 && low2 - 1 <= high2 <= end2
    && !Skipped(data, high1, end1, low2, end2)
    && (exists k: nat :: high1 == EndTried(low1, end1, half, k) && EarlierSkipped(data, low1, end1, low2, end2, half, k))
    && if high1 == end1 then high2 == end2 else SplitsAt(data, low2, end2, data[high1], high2)
  }

  /** The commands cut the chunks, up to `low1` and `low2`, into such pieces. */
  ghost predicate CutsInto(cmds: seq<Command>, data: seq<int>, c1: nat, half: nat, low1: int, low2: int)
    requires half >= 1
  {
    if cmds == [] then low1 == 0 && low2 == c1
    else
      var last := cmds[|cmds| - 1];
      var p1, p2 := low1 - last.chunk1, low2 - last.chunk2;
      && 0 <= p1 < c1 <= p2 <= |data|
      && IsPiece(data, p1, p2, c1 - 1, |data| - 1, half, low1 - 1, low2 - 1)
      && CutsInto(cmds[..|cmds| - 1], data, c1, half, p1, p2)
  }

  lemma CutsMore(cmds: seq<Command>, data: seq<int>, c1: nat, half: nat, low1: int, low2: int, mc: Command,
                 high1: int, high2: int)
    requires half >= 1 && 0 <= low1 < c1 <= low2 <= |data| && CutsInto(cmds, data, c1, half, low1, low2)
    requires IsPiece(data, low1, low2, c1 - 1, |data| - 1, half, high1, high2)
    requires mc.chunk1 == high1 - low1 + 1 && mc.chunk2 == high2 - low2 + 1
    ensures CutsInto(cmds + [mc], data, c1, half, high1 + 1, high2 + 1)
  {
    assert (cmds + [mc])[..|cmds|] == cmds;
  }

  lemma CutsNone(data: seq<int>, c1: nat, half: nat)
    requires half >= 1
    ensures CutsInto([], data, c1, half, 0, c1)
  {
  }

  /** The end of the next piece of both chunks.  It takes at least `half` elements of the first chunk,
      more if otherwise nothing of the second would be taken, and everything once the first chunk ends. */
  method ChoosePiece(data: seq<int>, low1: int, low2: int, end1: int, end2: int, half: nat)
      returns (high1: int, high2: int)
    requires half >= 1 && 0 <= low1 <= end1 < low2 <= end2 + 1 == |data|
    requires Sorted(data[..end1 + 1]) && Sorted(data[low2..end2 + 1])
    ensures low1 <= high1 <= end1 && low2 - 1 <= high2 <= end2
    ensures high1 < end1 ==> high1 >= low1 + half - 1
    ensures high1 == end1 ==> high2 == end2
    ensures IsPiece(data, low1, low2, end1, end2, half, high1, high2)
    ensures forall i, j :: low1 <= i <= high1 && high2 < j <= end2 ==> data[i] <= data[j]
    ensures forall i, j :: low2 <= i <= high2 && high1 < j <= end1 ==> data[i] <= data[j]
  {
    SortedAt(data, 0, end1 + 1);
    assert data[0..end1 + 1] == data[..end1 + 1];
    high1 := Min(low1 + half - 1, end1);
    high2 := end2;
    ghost var k: nat := 0;
    while true
      invariant low1 <= high1 <= end1 && (high1 < end1 ==> high1 >= low1 + half - 1)
      invariant high1 == EndTried(low1, end1, half, k) && EarlierSkipped(data, low1, end1, low2, end2, half, k)
      decreases end1 - high1
    {
      if low1 <= end1 && high1 < end1 {
        high2 := BinSplit(data[high1], low2, end2, data);
      } else {
        high2 := end2;
      }
      if low2 > high2 && high1 < end1 {
        high1 := Min(high1 + half, end1);
        k := k + 1;
      } else {
        break;
      }
    }
  }

  /** More commands than whole halves in the data are never needed. */
  lemma WithinBound(pieces: nat, half: nat, taken: nat, num: nat)
    requires half >= 1 && pieces * half <= taken < num
    ensures pieces < num / half + 1
  {
    var q := num / half;
    assert num < (q + 1) * half;
    Cancel(pieces, q + 1, half);
  }

  lemma Cancel(a: nat, b: nat, d: nat)
    requires a * d < b * d
    ensures a < b
  {
  }

  /** What every merge command of one combine command satisfies. */
  predicate GoodCommand(mc: Command, whole: bool) {
    mc.chunk1 > 0 && mc.place == if whole then 1 else 0
  }

  /** One round of the splitting loop: the commands so far, and the pieces copied so far. */
  ghost predicate SplitSoFar(cmds: seq<Command>, out: seq<int>, a: seq<int>, b: seq<int>, x: nat, y: nat, whole: bool) {
    && Total(cmds) == |out| == x + y
    && Part(MergeAll(cmds, out), a, b, x, y)
    && forall k :: 0 <= k < |cmds| ==> GoodCommand(cmds[k], whole)
  }

  lemma SplitMore(cmds: seq<Command>, out: seq<int>, a: seq<int>, b: seq<int>, x: nat, y: nat, whole: bool,
                  mc: Command, x': nat, y': nat)
    requires SplitSoFar(cmds, out, a, b, x, y, whole) && Sorted(a) && Sorted(b)
    requires x < x' <= |a| && y <= y' <= |b| && mc == Command(x' - x, y' - y, if whole then 1 else 0)
    requires Below(b[y..y'], a[x'..]) && Below(a[x..x'], b[y'..])
    ensures SplitSoFar(cmds + [mc], out + a[x..x'] + b[y..y'], a, b, x', y', whole)
  {
    hide Part, Merged, Sorted, Below;
    var e := a[x..x'] + b[y..y'];
    assert out + a[x..x'] + b[y..y'] == out + e;
    MergeAllAppend(cmds, out, mc, e);
    TotalAppend(cmds, mc);
    assert e[..mc.chunk1] == a[x..x'] && e[mc.chunk1..] == b[y..y'];
    PartStep(MergeAll(cmds, out), a, b, x, y, x', y');
  }

  lemma SplitStart(a: seq<int>, b: seq<int>, whole: bool)
    ensures SplitSoFar([], [], a, b, 0, 0, whole)
  {
  }

  lemma SplitComplete(cmds: seq<Command>, out: seq<int>, a: seq<int>, b: seq<int>, whole: bool)
    requires SplitSoFar(cmds, out, a, b, |a|, |b|, whole) && Sorted(a) && Sorted(b)
    ensures Total(cmds) == |out| == |a| + |b| && MergeAll(cmds, out) == Merged(a, b)
    ensures forall k :: 0 <= k < |cmds| ==> GoodCommand(cmds[k], whole)
  {
    PartComplete(MergeAll(cmds, out), a, b);
  }

  /** One round of the splitting loop: choose a piece, copy it, and note its merge command. */
  method SplitPiece(data: seq<int>, c1: nat, half: nat, place: nat, low1: int, low2: int,
                    cmds: seq<Command>, out: seq<int>, ghost whole: bool)
      returns (mc: Command, out': seq<int>, high1: int, high2: int)
    requires half >= 1 && 0 <= low1 < c1 <= low2 <= |data| && place == (if whole then 1 else 0)
    requires Sorted(data[..c1]) && Sorted(data[c1..])
    requires SplitSoFar(cmds, out, data[..c1], data[c1..], low1, low2 - c1, whole)
    ensures low1 <= high1 < c1 && low2 - 1 <= high2 < |data|
    ensures high1 < c1 - 1 ==> high1 >= low1 + half - 1
    ensures high1 == c1 - 1 ==> high2 == |data| - 1
    ensures IsPiece(data, low1, low2, c1 - 1, |data| - 1, half, high1, high2)
    ensures mc.chunk1 == high1 - low1 + 1 && mc.chunk2 == high2 - low2 + 1
    ensures SplitSoFar(cmds + [mc], out', data[..c1], data[c1..], high1 + 1, high2 + 1 - c1, whole)
  {
    hide SplitSoFar, Below, Merged, IsPiece;
    ghost var a, b := data[..c1], data[c1..];
    Tails(data, c1, low2);
    high1, high2 := ChoosePiece(data, low1, low2, c1 - 1, |data| - 1, half);
    var copyNum := high1 - low1 + 1;
    out' := out + data[low1..low1 + copyNum];
    copyNum := high2 - low2 + 1;
    if copyNum > 0 {
      out' := out' + data[low2..low2 + copyNum];
    }
    mc := Command(high1 - low1 + 1, high2 - low2 + 1, place);
    PieceBelow(data, c1, low1, low2, high1, high2);
    Slices(data, c1, low1, high1 + 1, low2, high2 + 1);
    assert out' == out + data[low1..high1 + 1] + data[low2..high2 + 1];
    SplitMore(cmds, out, a, b, low1, low2 - c1, whole, mc, high1 + 1, high2 + 1 - c1);
  }

  /** The combine kernel.  The merge commands it generates fit the array of the source, cover the data,
      and, executed one after another on the copied pieces, yield the merge of the two chunks. */
  method Combine(c: Command, data: seq<int>, half: nat, n: nat) returns (cmds: seq<Command>, out: seq<int>)
    requires half >= 1 && c.chunk1 > 0 && |data| == Size(c)
    requires Sorted(data[..c.chunk1]) && Sorted(data[c.chunk1..])
    ensures 1 <= |cmds| <= Size(c) / half + 1
    ensures Total(cmds) == |out| == |data|
    ensures forall k :: 0 <= k < |cmds| ==> GoodCommand(cmds[k], Size(c) == n)
    ensures MergeAll(cmds, out) == MergeOne(c, data)
    ensures if c.chunk2 == 0 then |cmds| == 1 else CutsInto(cmds, data, c.chunk1, half, c.chunk1, |data|)
  {
    hide SplitSoFar, Sorted, Below, Merged, GoodCommand, IsPiece, CutsInto;
    var num := c.chunk1 + c.chunk2;
    var place := if num == n then 1 else 0;
    ghost var a, b := data[..c.chunk1], data[c.chunk1..];
    SplitStart(a, b, num == n);
    AtLeastOne(num, half);
    if c.chunk2 == 0 {
      cmds := [Command(c.chunk1, 0, place)];
      out := data[..c.chunk1];
      OnePiece(a, b, num == n);
      SplitComplete(cmds, out, a, b, num == n);
      return;
    }
    var maxMergeCmd := num / half + 1;
    var end1, end2 := c.chunk1 - 1, num - 1;
    var low1, low2 := 0, c.chunk1;
    cmds, out := [], [];
    CutsNone(data, c.chunk1, half);
    var mi := 0;
    while mi < maxMergeCmd
      invariant 0 <= low1 <= end1 < low2 <= end2 + 1 && mi == |cmds| < maxMergeCmd
      invariant mi * half <= low1
      invariant SplitSoFar(cmds, out, a, b, low1, low2 - c.chunk1, num == n)
      invariant CutsInto(cmds, data, c.chunk1, half, low1, low2)
    {
      var mc, more, high1, high2 := SplitPiece(data, c.chunk1, half, place, low1, low2, cmds, out, num == n);
      NextBound(mi, half, low1, high1, end1);
      CutsMore(cmds, data, c.chunk1, half, low1, low2, mc, high1, high2);
      cmds, out := cmds + [mc], more;
      low1 := high1 + 1;
      low2 := high2 + 1;
      mi := mi + 1;
      if low1 > end1 && low2 > end2 {
        SplitComplete(cmds, out, a, b, num == n);
        return;
      }
      WithinBound(mi, half, low1, num);
    }
    // The array of commands is always large enough.
    assert false;
  }

  lemma AtLeastOne(num: nat, half: nat)
    requires half >= 1
    ensures num / half + 1 >= 1
  {
  }

  lemma OnePiece(a: seq<int>, b: seq<int>, whole: bool)
    requires a != [] && b == [] && Sorted(a)
    ensures SplitSoFar([Command(|a|, 0, if whole then 1 else 0)], a, a, b, |a|, 0, whole)
  {
    hide SplitSoFar, Merged;
    SplitStart(a, b, whole);
    BelowNone(a, b);
    var mc := Command(|a|, 0, if whole then 1 else 0);
    assert a[0..|a|] == a && b[0..0] == [] && [] + a + [] == a && [] + [mc] == [mc];
    SplitMore([], [], a, b, 0, 0, whole, mc, |a|, 0);
  }

  lemma NextBound(mi: nat, half: nat, low1: int, high1: int, end1: int)
    requires mi * half <= low1 <= high1 <= end1 && (high1 < end1 ==> high1 >= low1 + half - 1)
    ensures high1 < end1 ==> (mi + 1) * half <= high1 + 1
  {
  }

  lemma BelowNone(a: seq<int>, b: seq<int>)
    requires b == []
    ensures Below(b[0..0], a[|a|..]) && Below(a[0..|a|], b[0..])
  {
  }

  lemma Tails(data: seq<int>, c1: nat, low2: nat)
    requires c1 <= low2 <= |data| && Sorted(data[c1..])
    ensures Sorted(data[low2..|data|])
  {
    assert data[low2..|data|] == data[c1..][low2 - c1..];
  }

  lemma Slices(data: seq<int>, c1: nat, l1: nat, h1: nat, l2: nat, h2: nat)
    requires l1 <= h1 <= c1 <= l2 <= h2 <= |data|
    ensures data[..c1][l1..h1] == data[l1..h1] && data[c1..][l2 - c1..h2 - c1] == data[l2..h2]
  {
  }

  lemma PieceBelow(data: seq<int>, c1: nat, low1: int, low2: int, high1: int, high2: int)
    requires 0 <= low1 <= high1 < c1 <= low2 <= high2 + 1 <= |data|
    requires forall i, j :: low1 <= i <= high1 && high2 < j < |data| ==> data[i] <= data[j]
    requires forall i, j :: low2 <= i <= high2 && high1 < j < c1 ==> data[i] <= data[j]
    ensures var a, b := data[..c1], data[c1..];
      && Below(b[low2 - c1..high2 + 1 - c1], a[high1 + 1..])
      && Below(a[low1..high1 + 1], b[high2 + 1 - c1..])
  {
  }
}
