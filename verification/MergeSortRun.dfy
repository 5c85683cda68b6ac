/** The whole merge sort: the generated command stream, and what executing it in order over FIFO data
    queues delivers. */
module MergeSortRun {
  import opened Common
  import opened RingIndex
  import opened Sorting
  import opened MergeCombine
  import QuickSort

  /** The number of runs: the greatest number that is one or even and for which there are whole runs
      of `q`. */
  function NumSortCmd(n: nat, q: nat): (r: nat)
    requires q >= 1
    ensures r >= 1 && (r == 1 || r % 2 == 0) && (r >= 2 ==> r <= n / q)
    ensures forall m: nat :: r < m <= n / q ==> m % 2 == 1
  {
    var r := Max(n / q, 1);
    if r % 2 == 1 && r > 2 then r - 1 else r
  }

  function Sum(s: seq<nat>): nat {
    if s == [] then 0 else s[0] + Sum(s[1..])
  }

  /** What the command stream should be: the two oldest chunks are combined and the result queues up
      behind the others.  Of the pending chunks the first `runs` are sorted runs, in queue 1; the
      others are results of merging, in queue 2. */
  function Plan(pending: seq<nat>, runs: nat): (cmds: seq<Command>)
    ensures |cmds| == if pending == [] then 0 else |pending| - 1
    decreases |pending|
  {
    if |pending| < 2 then []
    else
      [Command(pending[0], pending[1], if runs >= 2 then 1 else 2)]
      + Plan(pending[2..] + [pending[0] + pending[1]], if runs >= 2 then runs - 2 else runs)
  }

  /** A single run is not combined with anything, only passed on. */
  function PlanAll(sizes: seq<nat>): (cmds: seq<Command>)
    ensures sizes != [] ==> |cmds| == Max(1, |sizes| - 1)
  {
    if |sizes| == 1 then [Command(sizes[0], 0, 1)] else Plan(sizes, |sizes|)
  }

  ghost predicate AllPositive(s: seq<nat>) { forall i :: 0 <= i < |s| ==> s[i] > 0 }

  lemma {:induction false} SumAppend(s: seq<nat>, t: seq<nat>)
    ensures Sum(s + t) == Sum(s) + Sum(t)
    decreases |s|
  {
    if s == [] {
      assert s + t == t;
    } else {
      assert (s + t)[1..] == s[1..] + t;
      SumAppend(s[1..], t);
    }
  }

  lemma {:induction false} SumPositive(s: seq<nat>)
    requires AllPositive(s)
    ensures Sum(s) >= |s|
    decreases |s|
  {
    if s != [] {
      SumPositive(s[1..]);
    }
  }

  /** The two oldest chunks hold everything exactly if they are the only ones. */
  lemma TwoHoldAll(pending: seq<nat>)
    requires |pending| >= 2 && AllPositive(pending)
    ensures pending[0] + pending[1] == Sum(pending) <==> |pending| == 2
  {
    SumPositive(pending[2..]);
    assert pending[1..][1..] == pending[2..];
  }

  lemma CombineSum(pending: seq<nat>)
    requires |pending| >= 2 && AllPositive(pending)
    ensures var next := pending[2..] + [pending[0] + pending[1]]; Sum(next) == Sum(pending) && AllPositive(next)
  {
    SumAppend(pending[2..], [pending[0] + pending[1]]);
    assert pending[1..][1..] == pending[2..];
    var one := [pending[0] + pending[1]];
    assert one[1..] == [];
  }

  /** `pending` lies in the circular array from index `ci` on. */
  ghost predicate InCircle(circle: seq<nat>, ci: nat, pending: seq<nat>)
    requires |circle| > 0
  {
    |pending| <= |circle| && forall k :: 0 <= k < |pending| ==> circle[Index(|circle|, ci + k)] == pending[k]
  }

  /** Storing the sum of the two oldest chunks over a slot already used puts it behind the others. */
  lemma CircleStep(circle: seq<nat>, ci: nat, pi: nat, pending: seq<nat>)
    requires |circle| >= 2 && InCircle(circle, ci, pending) && 2 <= |pending| == |circle| + pi - ci && pi <= ci
    ensures var sum := pending[0] + pending[1];
      InCircle(circle[Index(|circle|, pi) := sum], ci + 2, pending[2..] + [sum])
  {
    hide Index;
    var n, sum := |circle|, pending[0] + pending[1];
    var circle', next := circle[Index(n, pi) := sum], pending[2..] + [sum];
    forall k | 0 <= k < |next|
      ensures circle'[Index(n, ci + 2 + k)] == next[k]
    {
      if k < |pending| - 2 {
        SameIndexSameCounter(n, pi, ci + 2 + k);
        assert circle[Index(n, ci + (k + 2))] == pending[k + 2];
      } else {
        assert ci + 2 + k == pi + n;
        IndexOfAdvance(n, pi, n);
        AdvanceLap(n, pi);
      }
    }
  }

  lemma AdvanceLap(n: nat, c: nat)
    requires n > 0
    ensures Advance(n, Index(n, c), n) == Index(n, c)
  {
  }

  /** The sort commands: whole runs, with what is left over in the last one. */
  method SortSizes(n: nat, q: nat) returns (sizes: seq<nat>)
    requires n >= 1 && q >= 1
    ensures |sizes| == NumSortCmd(n, q) && Sum(sizes) == n && AllPositive(sizes)
    ensures forall c :: 0 <= c < |sizes| - 1 ==> sizes[c] == q
  {
    hide NumSortCmd, Sum;
    var numSortCmd := NumSortCmd(n, q);
    EnoughForRuns(n, q);
    sizes := [];
    EmptySum();
    for c := 0 to numSortCmd
      invariant |sizes| == c && (forall k :: 0 <= k < c && k < numSortCmd - 1 ==> sizes[k] == q)
      invariant AllPositive(sizes) && Sum(sizes) == if c == numSortCmd then n else c * q
      invariant (numSortCmd - 1) * q < n
    {
      var sortSize := if c == numSortCmd - 1 then n - c * q else q;
      if c < numSortCmd - 1 {
        NextRun(c, q);
      }
      SumAppend(sizes, [sortSize]);
      SingleSum(sortSize);
      sizes := sizes + [sortSize];
    }
  }

  lemma EnoughForRuns(n: nat, q: nat)
    requires n >= 1 && q >= 1
    ensures (NumSortCmd(n, q) - 1) * q < n
  {
    var r := NumSortCmd(n, q);
    if r >= 2 {
      assert (n / q) * q <= n;
      assert (r - 1) * q < r * q <= (n / q) * q;
    }
  }

  lemma NextRun(c: nat, q: nat)
    ensures (c + 1) * q == c * q + q
  {
  }

  lemma EmptySum()
    ensures Sum([]) == 0
  {
  }

  lemma SingleSum(x: nat)
    ensures Sum([x]) == x
  {
    var one := [x];
    assert one[1..] == [];
  }

  /** Take the two oldest chunk sizes out of the circular array and queue their sum. */
  method TakeTwo(circle: array<nat>, ci: nat, pi: nat, ghost pending: seq<nat>) returns (chunk1: nat, chunk2: nat)
    requires circle.Length >= 2 && InCircle(circle[..], ci, pending)
    requires 2 <= |pending| == circle.Length + pi - ci && pi <= ci
    modifies circle
    ensures chunk1 == pending[0] && chunk2 == pending[1]
    ensures InCircle(circle[..], ci + 2, pending[2..] + [pending[0] + pending[1]])
  {
    hide Index, InCircle;
    var r := circle.Length;
    CircleFront(circle[..], ci, pending);
    CircleStep(circle[..], ci, pi, pending);
    IndexIsRemainder(r, ci);
    IndexIsRemainder(r, ci + 1);
    IndexIsRemainder(r, pi);
    chunk1 := circle[ci % r];
    chunk2 := circle[(ci + 1) % r];
    ghost var was := circle[..];
    circle[pi % r] := chunk1 + chunk2;
    assert circle[..] == was[Index(r, pi) := pending[0] + pending[1]];
  }

  /** Executed in order over queues that hold chunks of the sizes `q1` and `q2`, every command finds its
      chunk or chunks at the front of the queue it names; each but the last leaves the rest to be
      combined with its result, and the last one covers all `n` elements and leaves nothing behind. */
  ghost predicate FindsChunks(cmds: seq<Command>, q1: seq<nat>, q2: seq<nat>, n: nat)
    decreases |cmds|
  {
    cmds != [] &&
    var c, used := cmds[0], if cmds[0].chunk2 == 0 then 1 else 2;
    && (c.place == 1 || c.place == 2)
    && var q := if c.place == 1 then q1 else q2;
      && used <= |q| && q[0] == c.chunk1 && (used == 2 ==> q[1] == c.chunk2)
      && var q1', q2' := if c.place == 1 then q1[used..] else q1, if c.place == 2 then q2[used..] else q2;
        if Size(c) == n then |cmds| == 1 && q1' == [] && q2' == []
        else FindsChunks(cmds[1..], q1', q2' + [Size(c)], n)
  }

  lemma {:induction false} PlanFindsChunks(pending: seq<nat>, runs: nat, n: nat)
    requires |pending| >= 2 && AllPositive(pending) && Sum(pending) == n && runs <= |pending| && runs % 2 == 0
    ensures FindsChunks(Plan(pending, runs), pending[..runs], pending[runs..], n)
    decreases |pending|
  {
    hide Sum, FindsChunks, Plan;
    var sum, runs' := pending[0] + pending[1], if runs >= 2 then runs - 2 else runs;
    var next := pending[2..] + [sum];
    TwoHoldAll(pending);
    CombineSum(pending);
    PlanFirst(pending, runs);
    if |pending| == 2 {
      PlanSingle(next, runs');
    } else {
      PlanFindsChunks(next, runs', n);
      if runs >= 2 {
        assert next[..runs'] == pending[..runs][2..] && next[runs'..] == pending[runs..] + [sum];
      } else {
        assert next[..runs'] == pending[..runs] && next[runs'..] == pending[runs..][2..] + [sum];
      }
    }
    FirstFindsChunks(pending, runs, Plan(next, runs'), n);
  }

  lemma FirstFindsChunks(pending: seq<nat>, runs: nat, rest: seq<Command>, n: nat)
    requires |pending| >= 2 && pending[1] > 0 && runs <= |pending| && runs != 1
    requires |pending| == 2 ==> rest == []
    requires pending[0] + pending[1] == n <==> |pending| == 2
    requires |pending| > 2 ==>
      var sum := pending[0] + pending[1];
      if runs >= 2 then FindsChunks(rest, pending[..runs][2..], pending[runs..] + [sum], n)
      else FindsChunks(rest, pending[..runs], pending[runs..][2..] + [sum], n)
    ensures FindsChunks([Command(pending[0], pending[1], if runs >= 2 then 1 else 2)] + rest, pending[..runs], pending[runs..], n)
  {
    var c := Command(pending[0], pending[1], if runs >= 2 then 1 else 2);
    assert ([c] + rest)[1..] == rest;
  }

  /** So do the commands that CombineCommands generates, for one run or many. */
  lemma PlanAllFindsChunks(sizes: seq<nat>, n: nat)
    requires sizes != [] && (|sizes| == 1 || |sizes| % 2 == 0) && AllPositive(sizes) && Sum(sizes) == n
    ensures FindsChunks(PlanAll(sizes), sizes, [], n)
  {
    if |sizes| == 1 {
      SingleSum(sizes[0]);
      assert sizes == [sizes[0]];
    } else {
      PlanFindsChunks(sizes, |sizes|, n);
      assert sizes[..|sizes|] == sizes && sizes[|sizes|..] == [];
    }
  }

  /** The generated commands, by the circular array of the source; PlanAllFindsChunks says what they are
      good for.  The loop ends when a command covers everything, and has then issued exactly max(1, runs - 1) commands. */
  method CombineCommands(sizes: seq<nat>, n: nat) returns (cmds: seq<Command>)
    requires sizes != [] && (|sizes| == 1 || |sizes| % 2 == 0) && AllPositive(sizes) && Sum(sizes) == n
    ensures cmds == PlanAll(sizes) && |cmds| == Max(1, |sizes| - 1)
    ensures Size(cmds[|cmds| - 1]) == n
    ensures forall k :: 0 <= k < |cmds| - 1 ==> Size(cmds[k]) != n
  {
    hide Index, Sum, AllPositive, InCircle, Plan;
    var r := |sizes|;
    var circle := new nat[r](i requires 0 <= i < |sizes| => sizes[i]);
    assert circle[..] == sizes;
    var pi, ci := 0, 0;
    cmds := [];
    ghost var pending := sizes;
    if r == 1 {
      SingleSum(sizes[0]);
      assert sizes == [sizes[0]];
      cmds := [Command(circle[0], 0, 1)];
      return;
    }
    CircleStart(sizes);
    while true
      invariant ci == 2 * pi && |pending| == r + pi - ci >= 2 && circle.Length == r
      invariant AllPositive(pending) && Sum(pending) == n && InCircle(circle[..], ci, pending)
      invariant cmds + Plan(pending, if ci <= r then r - ci else 0) == Plan(sizes, r)
      invariant forall k :: 0 <= k < |cmds| ==> Size(cmds[k]) != n
      decreases |pending|
    {
      TwoHoldAll(pending);
      CombineSum(pending);
      PlanFirst(pending, if ci <= r then r - ci else 0);
      var chunk1, chunk2 := TakeTwo(circle, ci, pi, pending);
      ci := ci + 2;
      pi := pi + 1;
      cmds := cmds + [Command(chunk1, chunk2, if ci <= r then 1 else 2)];
      pending := pending[2..] + [pending[0] + pending[1]];
      if chunk1 + chunk2 == n {
        PlanSingle(pending, if ci <= r then r - ci else 0);
        break;
      }
    }
  }

  lemma CircleStart(sizes: seq<nat>)
    requires sizes != []
    ensures InCircle(sizes, 0, sizes)
  {
  }

  lemma CircleFront(circle: seq<nat>, ci: nat, pending: seq<nat>)
    requires |circle| >= 2 && InCircle(circle, ci, pending) && |pending| >= 2
    ensures circle[Index(|circle|, ci)] == pending[0] && circle[Index(|circle|, ci + 1)] == pending[1]
  {
    hide Index;
    assert circle[Index(|circle|, ci + 0)] == pending[0];
  }

  lemma PlanFirst(pending: seq<nat>, runs: nat)
    requires |pending| >= 2
    ensures Plan(pending, runs) ==
      [Command(pending[0], pending[1], if runs >= 2 then 1 else 2)]
      + Plan(pending[2..] + [pending[0] + pending[1]], if runs >= 2 then runs - 2 else runs)
  {
  }

  lemma PlanSingle(pending: seq<nat>, runs: nat)
    requires |pending| == 1
    ensures Plan(pending, runs) == []
  {
  }

  // ---------------------------------------------------------------------------------------------
  // Executing the commands
  // ---------------------------------------------------------------------------------------------

  function Flat(lists: seq<seq<int>>): seq<int> {
    if lists == [] then [] else lists[0] + Flat(lists[1..])
  }

  function Lengths(lists: seq<seq<int>>): (sizes: seq<nat>)
    ensures |sizes| == |lists|
  {
    seq(|lists|, i requires 0 <= i < |lists| => |lists[i]|)
  }

  ghost predicate AllSorted(lists: seq<seq<int>>) {
    forall i :: 0 <= i < |lists| ==> Sorted(lists[i]) && lists[i] != []
  }

  lemma {:induction false} FlatAppend(a: seq<seq<int>>, b: seq<seq<int>>)
    ensures Flat(a + b) == Flat(a) + Flat(b)
    decreases |a|
  {
    if a == [] {
      assert a + b == b;
    } else {
      assert (a + b)[1..] == a[1..] + b;
      FlatAppend(a[1..], b);
      assert a[0] + (Flat(a[1..]) + Flat(b)) == (a[0] + Flat(a[1..])) + Flat(b);
    }
  }

  lemma FlatOne(x: seq<int>)
    ensures Flat([x]) == x
  {
    var one := [x];
    assert one[1..] == [];
    assert x + [] == x;
  }

  lemma FlatTwo(lists: seq<seq<int>>)
    requires |lists| >= 2
    ensures Flat(lists) == lists[0] + lists[1] + Flat(lists[2..])
  {
    assert lists[1..][1..] == lists[2..];
    assert lists[0] + (lists[1] + Flat(lists[2..])) == lists[0] + lists[1] + Flat(lists[2..]);
  }

  lemma {:induction false} FlatLength(lists: seq<seq<int>>)
    ensures |Flat(lists)| == Sum(Lengths(lists))
    decreases |lists|
  {
    if lists != [] {
      FlatLength(lists[1..]);
      assert Lengths(lists)[1..] == Lengths(lists[1..]);
    }
  }

  /** The state of the data queues: the sorted runs not yet combined, then the merged results. */
  datatype Queues = Queues(q1: seq<int>, q2: seq<int>, lists: seq<seq<int>>, runs: nat)

  ghost predicate QueuesOk(s: Queues) {
    && s.runs <= |s.lists| && AllSorted(s.lists)
    && (s.runs % 2 == 0 || (s.runs == 1 && |s.lists| == 1))
    && s.q1 == Flat(s.lists[..s.runs]) && s.q2 == Flat(s.lists[s.runs..])
  }

  /** Every combine command finds its two chunks, adjacent and in order, at the front of the queue it
      names. */
  lemma NamedQueueHolds(s: Queues)
    requires QueuesOk(s) && |s.lists| >= 2
    ensures var q, rest := (if s.runs >= 2 then s.q1 else s.q2), s.lists[2..if s.runs >= 2 then s.runs else |s.lists|];
      q == s.lists[0] + s.lists[1] + Flat(rest)
  {
    hide Flat;
    if s.runs >= 2 {
      FlatTwo(s.lists[..s.runs]);
      assert s.lists[..s.runs][2..] == s.lists[2..s.runs];
    } else {
      assert s.lists[s.runs..] == s.lists;
      FlatTwo(s.lists);
      assert s.lists[2..|s.lists|] == s.lists[2..];
    }
  }

  /** After a combine command and its merges: the two chunks are gone and the result is last. */
  ghost function Advanced(s: Queues): Queues
    requires |s.lists| >= 2 && s.runs <= |s.lists|
  {
    var m := Merged(s.lists[0], s.lists[1]);
    var num := |s.lists[0]| + |s.lists[1]|;
    if s.runs >= 2 then
      Queues(if num <= |s.q1| then s.q1[num..] else [], s.q2 + m, s.lists[2..] + [m], s.runs - 2)
    else
      Queues(s.q1, (if num <= |s.q2| then s.q2[num..] else []) + m, s.lists[2..] + [m], s.runs)
  }

  lemma AdvancedSorted(s: Queues)
    requires QueuesOk(s) && |s.lists| >= 2
    ensures AllSorted(Advanced(s).lists)
  {
    hide Flat, Merged, Sorted;
    MergedSorted(s.lists[0], s.lists[1]);
  }

  lemma AdvancedQueues(s: Queues)
    requires QueuesOk(s) && |s.lists| >= 2
    ensures var s' := Advanced(s);
      s'.runs <= |s'.lists| && s'.q1 == Flat(s'.lists[..s'.runs]) && s'.q2 == Flat(s'.lists[s'.runs..])
  {
    hide Flat, Merged, AllSorted;
    var s', m := Advanced(s), Merged(s.lists[0], s.lists[1]);
    NamedQueueHolds(s);
    FlatOne(m);
    var front := s.lists[0] + s.lists[1];
    if s.runs >= 2 {
      DropFront(front, Flat(s.lists[2..s.runs]));
      assert s'.lists[..s'.runs] == s.lists[2..s.runs];
      assert s'.lists[s'.runs..] == s.lists[s.runs..] + [m];
      FlatAppend(s.lists[s.runs..], [m]);
    } else {
      DropFront(front, Flat(s.lists[2..|s.lists|]));
      assert s'.lists[..s'.runs] == s.lists[..s.runs] == [];
      assert s'.lists[s'.runs..] == s.lists[2..|s.lists|] + [m];
      FlatAppend(s.lists[2..|s.lists|], [m]);
    }
  }

  lemma DropFront(a: seq<int>, b: seq<int>)
    ensures (a + b)[|a|..] == b && (a + b)[..|a|] == a
  {
  }

  lemma AdvancedPerm(s: Queues)
    requires s.runs <= |s.lists| && |s.lists| >= 2
    ensures Perm(Flat(s.lists), Flat(Advanced(s).lists))
    ensures Lengths(Advanced(s).lists) == Lengths(s.lists)[2..] + [|s.lists[0]| + |s.lists[1]|]
  {
    hide Flat, Merged;
    var m := Merged(s.lists[0], s.lists[1]);
    MergedPerm(s.lists[0], s.lists[1]);
    FlatOne(m);
    FlatTwo(s.lists);
    FlatAppend(s.lists[2..], [m]);
  }

  lemma AdvancedOk(s: Queues)
    requires QueuesOk(s) && |s.lists| >= 2
    ensures QueuesOk(Advanced(s))
  {
    hide Flat, Merged, AllSorted;
    AdvancedSorted(s);
    AdvancedQueues(s);
  }

  /** The merge kernel over the commands of one combine command: the results go to the sink if they
      are the whole sort and back to queue 2 otherwise. */
  method MergeStage(mcs: seq<Command>, pieces: seq<int>, whole: bool, q2: seq<int>, sink: seq<int>)
      returns (q2': seq<int>, sink': seq<int>)
    requires Total(mcs) == |pieces| && forall k :: 0 <= k < |mcs| ==> GoodCommand(mcs[k], whole)
    ensures q2' == if whole then q2 else q2 + MergeAll(mcs, pieces)
    ensures sink' == if whole then sink + MergeAll(mcs, pieces) else sink
  {
    hide MergeOne;
    q2', sink' := q2, sink;
    var rest := pieces;
    ghost var done := [];
    assert mcs[0..] == mcs;
    for k := 0 to |mcs|
      invariant |rest| == Total(mcs[k..]) && done + MergeAll(mcs[k..], rest) == MergeAll(mcs, pieces)
      invariant q2' == (if whole then q2 else q2 + done) && sink' == (if whole then sink + done else sink)
    {
      var mc := mcs[k];
      var size := Size(mc);
      assert mcs[k..][0] == mc && mcs[k..][1..] == mcs[k + 1..];
      MergeAllFirst(mcs[k..], rest);
      var merged := Merge(mc, rest[..size]);
      if mc.place == 0 {
        q2' := q2' + merged;
      } else {
        sink' := sink' + merged;
      }
      Regroup(done, merged, MergeAll(mcs[k + 1..], rest[size..]), q2, sink);
      done := done + merged;
      rest := rest[size..];
    }
    assert mcs[|mcs|..] == [];
    assert done + [] == done;
  }

  lemma Regroup(a: seq<int>, b: seq<int>, c: seq<int>, q2: seq<int>, sink: seq<int>)
    ensures a + (b + c) == (a + b) + c && q2 + a + b == q2 + (a + b) && sink + a + b == sink + (a + b)
  {
  }

  /** The sequential sort kernel over all sort commands: sorted runs, in order. */
  method SortRuns(input: seq<int>, sizes: seq<nat>) returns (q1: seq<int>, ghost lists: seq<seq<int>>)
    requires Sum(sizes) == |input| && AllPositive(sizes)
    ensures q1 == Flat(lists) && AllSorted(lists) && Lengths(lists) == sizes && Perm(q1, input)
  {
    hide Sum, Flat, Sorted;
    var rest := input;
    q1, lists := [], [];
    EmptyFlat();
    assert sizes[0..] == sizes && sizes[..0] == [] && input[..0] == [];
    for k := 0 to |sizes|
      invariant |lists| == k && q1 == Flat(lists) && AllSorted(lists) && Lengths(lists) == sizes[..k]
      invariant |rest| <= |input| && rest == input[|input| - |rest|..] && |rest| == Sum(sizes[k..])
      invariant Perm(q1, input[..|input| - |rest|])
    {
      SumFirst(sizes[k..]);
      assert sizes[k..][1..] == sizes[k + 1..];
      var run := rest[..sizes[k]];
      var sorted := QuickSort.SequentialSort(run);
      assert |sorted| == |run| by {
        assert |multiset(sorted)| == |multiset(run)|;
      }
      FlatAppend(lists, [sorted]);
      FlatOne(sorted);
      assert input[..|input| - |rest| + sizes[k]] == input[..|input| - |rest|] + run;
      assert sizes[..k + 1] == sizes[..k] + [sizes[k]];
      q1 := q1 + sorted;
      lists := lists + [sorted];
      rest := rest[sizes[k]..];
    }
    assert sizes[|sizes|..] == [] && sizes[..|sizes|] == sizes;
    EmptySum();
    assert input[..|input|] == input;
  }

  lemma EmptyFlat()
    ensures Flat([]) == []
  {
  }

  lemma SumFirst(s: seq<nat>)
    requires s != []
    ensures Sum(s) == s[0] + Sum(s[1..])
  {
  }

  /** Where the run stands before command `k`: the rest of the commands is the plan for the pending
      chunks, which are in their queues and hold the whole input. */
  ghost predicate Underway(s: Queues, rest: seq<Command>, input: seq<int>) {
    && QueuesOk(s) && |s.lists| >= 2 && rest == Plan(Lengths(s.lists), s.runs) && Perm(Flat(s.lists), input)
  }

  lemma UnderwayFacts(s: Queues, rest: seq<Command>, input: seq<int>)
    requires Underway(s, rest, input)
    ensures rest != [] && Size(rest[0]) == |s.lists[0]| + |s.lists[1]| && rest[0].chunk1 == |s.lists[0]| > 0
    ensures rest[0].place == (if s.runs >= 2 then 1 else 2)
    ensures Sorted(s.lists[0]) && Sorted(s.lists[1])
    ensures var q := if s.runs >= 2 then s.q1 else s.q2;
      Size(rest[0]) <= |q| && q[..Size(rest[0])] == s.lists[0] + s.lists[1]
    ensures Size(rest[0]) == |input| <==> |s.lists| == 2
    ensures |rest| == |s.lists| - 1
  {
    hide Flat, Sum, Plan, Sorted;
    var sizes := Lengths(s.lists);
    PlanFirst(sizes, s.runs);
    NamedQueueHolds(s);
    DropFront(s.lists[0] + s.lists[1], Flat(s.lists[2..if s.runs >= 2 then s.runs else |s.lists|]));
    assert AllPositive(sizes);
    TwoHoldAll(sizes);
    FlatLength(s.lists);
    assert |multiset(input)| == |multiset(Flat(s.lists))|;
  }

  lemma QueuesShape(s: Queues)
    requires QueuesOk(s)
    ensures s.runs <= |s.lists|
  {
  }

  lemma UnderwayStep(s: Queues, rest: seq<Command>, input: seq<int>)
    requires Underway(s, rest, input) && |s.lists| > 2
    ensures rest != [] && Underway(Advanced(s), rest[1..], input)
  {
    hide Flat, Plan, QueuesOk, Merged;
    QueuesShape(s);
    PlanFirst(Lengths(s.lists), s.runs);
    AdvancedPerm(s);
    AdvancedOk(s);
    var one := [Command(|s.lists[0]|, |s.lists[1]|, if s.runs >= 2 then 1 else 2)];
    assert rest == one + rest[1..];
  }

  /** The last command: only two chunks are left, and their merge is the sorted input. */
  lemma UnderwayEnd(s: Queues, rest: seq<Command>, input: seq<int>)
    requires Underway(s, rest, input) && |s.lists| == 2
    ensures var m := Merged(s.lists[0], s.lists[1]); Sorted(m) && Perm(input, m)
  {
    hide Plan;
    MergedSorted(s.lists[0], s.lists[1]);
    MergedPerm(s.lists[0], s.lists[1]);
    FlatTwo(s.lists);
    assert s.lists[2..] == [];
    assert s.lists[0] + s.lists[1] + [] == s.lists[0] + s.lists[1];
  }

  /** A combine command pops its data from the queue it names. */
  method PopNamed(c: Command, q1: seq<int>, q2: seq<int>) returns (data: seq<int>, q1': seq<int>, q2': seq<int>)
    requires Size(c) <= |if c.place == 1 then q1 else q2|
    ensures data == (if c.place == 1 then q1 else q2)[..Size(c)]
    ensures q1' == if c.place == 1 then q1[Size(c)..] else q1
    ensures q2' == if c.place == 1 then q2 else q2[Size(c)..]
  {
    data, q1', q2' := [], q1, q2;
    if c.place == 1 {
      data := q1[..Size(c)];
      q1' := q1[Size(c)..];
    } else {
      data := q2[..Size(c)];
      q2' := q2[Size(c)..];
    }
  }

  /** One combine command and its merges, from popping its data to pushing the result. */
  method RunCommand(rest: seq<Command>, half: nat, input: seq<int>, q1: seq<int>, q2: seq<int>, ghost s: Queues)
      returns (q1': seq<int>, q2': seq<int>, sink: seq<int>, ghost s': Queues)
    requires half >= 1 && Underway(s, rest, input) && s.q1 == q1 && s.q2 == q2
    ensures rest != []
    ensures |rest| == 1 ==> Sorted(sink) && Perm(input, sink)
    ensures |rest| > 1 ==> sink == [] && Underway(s', rest[1..], input) && s'.q1 == q1' && s'.q2 == q2'
  {
    hide Flat, Sorted, Underway, Plan, QueuesOk, Merged, MergeAll, Total;
    UnderwayFacts(s, rest, input);
    var c := rest[0];
    var num := Size(c);
    var data;
    data, q1', q2' := PopNamed(c, q1, q2);
    assert data[..c.chunk1] == s.lists[0] && data[c.chunk1..] == s.lists[1];
    var mcs, pieces := Combine(c, data, half, |input|);
    q2', sink := MergeStage(mcs, pieces, num == |input|, q2', []);
    if |s.lists| > 2 {
      UnderwayStep(s, rest, input);
      QueuesBound(s, rest, input);
      s' := Advanced(s);
    } else {
      UnderwayEnd(s, rest, input);
      assert sink == MergeAll(mcs, pieces);
      s' := s;
    }
  }

  lemma QueuesBound(s: Queues, rest: seq<Command>, input: seq<int>)
    requires Underway(s, rest, input)
    ensures s.runs <= |s.lists| && |s.lists| >= 2
  {
  }

  /** The whole pipeline, its kernels executing their commands in order: for every input, run size and
      split size, the sink receives the sorted permutation of the input. */
  method MergeSort(input: seq<int>, q: nat, half: nat) returns (sink: seq<int>)
    requires input != [] && q >= 1 && half >= 1
    ensures Sorted(sink) && Perm(input, sink)
  {
    hide Flat, Sorted, Underway, Plan, QueuesOk, Sum, NumSortCmd, AllPositive, AllSorted, Lengths, Size;
    var sizes := SortSizes(|input|, q);
    var cmds := CombineCommands(sizes, |input|);
    var q1, q2: seq<int>;
    ghost var lists: seq<seq<int>>;
    q1, lists := SortRuns(input, sizes);
    q2, sink := [], [];
    if |sizes| == 1 {
      PlanAllFindsChunks(sizes, |input|);
      sink := PassOn(cmds, q1, q2, lists, input, half);
      return;
    }
    ghost var s := Queues(q1, q2, lists, |lists|);
    EvenRuns(|input|, q);
    UnderwayStart(s, sizes, input);
    var rest := cmds;
    while rest != []
      invariant if rest == [] then Sorted(sink) && Perm(input, sink)
                else Underway(s, rest, input) && s.q1 == q1 && s.q2 == q2
      decreases |rest|
    {
      q1, q2, sink, s := RunCommand(rest, half, input, q1, q2, s);
      rest := rest[1..];
    }
  }

  lemma EvenRuns(n: nat, q: nat)
    requires q >= 1 && NumSortCmd(n, q) != 1
    ensures NumSortCmd(n, q) >= 2 && NumSortCmd(n, q) % 2 == 0
  {
  }

  lemma UnderwayStart(s: Queues, sizes: seq<nat>, input: seq<int>)
    requires |sizes| >= 2 && |sizes| % 2 == 0 && s.runs == |s.lists| && s.q1 == Flat(s.lists) && s.q2 == []
    requires AllSorted(s.lists) && Lengths(s.lists) == sizes && Perm(s.q1, input)
    ensures Underway(s, PlanAll(sizes), input)
  {
    assert s.lists[..s.runs] == s.lists && s.lists[s.runs..] == [];
  }

  /** A single run goes through the combine and merge kernels unchanged, popped from the queue that its
      one command names. */
  method PassOn(cmds: seq<Command>, q1: seq<int>, q2: seq<int>, ghost lists: seq<seq<int>>, input: seq<int>, half: nat)
      returns (sink: seq<int>)
    requires half >= 1 && |lists| == 1 && q1 == Flat(lists) && q2 == [] && AllSorted(lists) && Perm(q1, input)
    requires |cmds| == 1 && FindsChunks(cmds, Lengths(lists), [], |input|)
    ensures Sorted(sink) && Perm(input, sink)
  {
    FlatOne(lists[0]);
    assert lists == [lists[0]];
    assert |q1| == |input| by {
      assert |multiset(q1)| == |multiset(input)|;
    }
    var c := cmds[0];
    var data, rest1, rest2 := PopNamed(c, q1, q2);
    assert data == q1;
    var mcs, pieces := Combine(c, data, half, |input|);
    rest2, sink := MergeStage(mcs, pieces, Size(c) == |input|, rest2, []);
  }
}
