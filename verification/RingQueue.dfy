/** The lock-free reserve/commit ring as a machine over the atomic steps of any number of threads.

    A reservation takes three steps: read the reserved index, read the opposite index, and a
    compare-and-swap that moves the reserved index.  The window is then filled or read without a
    lock, and a second compare-and-swap on `tail` (`head`) commits it. */
module RingQueue {
  import opened Common
  import opened RingIndex

  /** `oldIndex` and `newIndex` are what the code stores in ReservationInfo; `num` cells are moved
      and `span` cells are visible in the window (more than `num` for a peeking pop). */
  datatype Reservation = Reservation(tid: nat, start: nat, num: nat, span: nat, oldIndex: nat, newIndex: nat)

  /** An index read from shared memory, with the counter it stood for at that moment. */
  datatype Reading = Reading(index: nat, count: nat)

  /** What a reserving thread has read so far: first the reserved index, then the opposite one. */
  datatype Snapshot = Snapshot(reserved: Reading, opposite: Option<Reading>)

  /** Beside the real fields the machine carries the unbounded counters behind the indices, the
      history of all reservations and the log of committed elements; no step looks at them. */
  datatype Ring<E> = Ring(
    n: nat, buff: seq<E>,
    head: nat, rHead: nat, tail: nat, rTail: nat,
    pushSnaps: map<nat, Snapshot>, popSnaps: map<nat, Snapshot>,
    headCount: nat, rHeadCount: nat, tailCount: nat, rTailCount: nat,
    pushes: seq<Reservation>, pushDone: nat,
    pops: seq<Reservation>, popDone: nat,
    log: seq<E>)

  datatype Action<E> =
    | ReadReservedTail(tid: nat)
    | ReadHead(tid: nat)
    | SwapReservedTail(tid: nat, num: nat)
    | WriteCell(k: nat, i: nat, v: E)
    | CommitPush(k: nat)
    | ReadReservedHead(tid: nat)
    | ReadTail(tid: nat)
    | SwapReservedHead(tid: nat, peek: nat, num: nat)
    | CommitPop(k: nat)

  function Init<E>(buff: seq<E>): Ring<E> {
    Ring(|buff|, buff, 0, 0, 0, 0, map[], map[], 0, 0, 0, 0, [], 0, [], 0, [])
  }

  predicate HasBoth(snaps: map<nat, Snapshot>, tid: nat) {
    tid in snaps && snaps[tid].opposite.Some?
  }

  /** Which steps a thread may take.  Every reservation moves at least one cell. */
  predicate Enabled<E>(s: Ring<E>, a: Action<E>)
    requires s.n > 0
  {
    match a
    case ReadReservedTail(_) => true
    case ReadHead(tid) => tid in s.pushSnaps
    case SwapReservedTail(tid, num) => num >= 1 && HasBoth(s.pushSnaps, tid)
    case WriteCell(k, i, _) => s.pushDone <= k < |s.pushes| && i < s.pushes[k].num
    case CommitPush(k) => s.pushDone <= k < |s.pushes|
    case ReadReservedHead(_) => true
    case ReadTail(tid) => tid in s.popSnaps
    case SwapReservedHead(tid, peek, num) => 1 <= num <= peek && HasBoth(s.popSnaps, tid)
    case CommitPop(k) => s.popDone <= k < |s.pops|
  }

  /** The cells of a reservation's window, by the two pieces the code hands out. */
  function CellOf(n: nat, r: Reservation, i: nat): nat
    requires r.oldIndex < n
  {
    CellAt(Windows(n, r.oldIndex, r.span), i)
  }

  predicate Wellformed<E>(s: Ring<E>) {
    && s.n > 0 && |s.buff| == s.n
    && s.head < s.n && s.rHead < s.n && s.tail < s.n && s.rTail < s.n
    && (forall k :: 0 <= k < |s.pushes| ==> s.pushes[k].oldIndex < s.n && s.pushes[k].num == s.pushes[k].span <= s.n)
    && (forall k :: 0 <= k < |s.pops| ==> s.pops[k].oldIndex < s.n && s.pops[k].span <= s.n)
  }

  lemma CellInRange(n: nat, r: Reservation, i: nat)
    requires r.oldIndex < n && r.span <= n && i < r.span
    ensures CellOf(n, r, i) < n
  {
  }

  function Contents<E>(s: Ring<E>, r: Reservation): (c: seq<E>)
    requires Wellformed(s) && r.oldIndex < s.n && r.span <= s.n
    ensures |c| == r.span
  {
    seq(r.span, i requires 0 <= i < r.span => CellInRange(s.n, r, i); s.buff[CellOf(s.n, r, i)])
  }

  function WriteAt<E>(s: Ring<E>, r: Reservation, i: nat, v: E): Ring<E>
    requires Wellformed(s) && r.oldIndex < s.n && r.span <= s.n && i < r.span
  {
    CellInRange(s.n, r, i);
    s.(buff := s.buff[CellOf(s.n, r, i) := v])
  }

  /** The read indices leave room, and the swap finds the reserved index that was read. */
  predicate WinsTail<E>(s: Ring<E>, tid: nat, num: nat)
    requires HasBoth(s.pushSnaps, tid)
  {
    var sn := s.pushSnaps[tid];
    HaveEnoughRoom(s.n, sn.reserved.index, sn.opposite.value.index, num) && s.rTail == sn.reserved.index
  }

  predicate WinsHead<E>(s: Ring<E>, tid: nat, peek: nat)
    requires HasBoth(s.popSnaps, tid)
  {
    var sn := s.popSnaps[tid];
    HaveEnoughData(s.n, sn.reserved.index, sn.opposite.value.index, peek) && s.rHead == sn.reserved.index
  }

  /** reservePushN after its reads: refused when the read indices leave no room, retried when
      another thread moved the reserved tail, and otherwise a reservation. */
  function SwapTail<E>(s: Ring<E>, tid: nat, num: nat): Ring<E>
    requires Wellformed(s) && HasBoth(s.pushSnaps, tid)
  {
    var rest := s.pushSnaps - {tid};
    if !WinsTail(s, tid, num) then s.(pushSnaps := rest)
    else
      var newIndex := Advance(s.n, s.rTail, num);
      s.(pushSnaps := rest, rTail := newIndex, rTailCount := s.rTailCount + num,
         pushes := s.pushes + [Reservation(tid, s.rTailCount, num, num, s.rTail, newIndex)])
  }

  function SwapHead<E>(s: Ring<E>, tid: nat, peek: nat, num: nat): Ring<E>
    requires Wellformed(s) && HasBoth(s.popSnaps, tid)
  {
    var rest := s.popSnaps - {tid};
    if !WinsHead(s, tid, peek) then s.(popSnaps := rest)
    else
      var newIndex := Advance(s.n, s.rHead, num);
      s.(popSnaps := rest, rHead := newIndex, rHeadCount := s.rHeadCount + num,
         pops := s.pops + [Reservation(tid, s.rHeadCount, num, peek, s.rHead, newIndex)])
  }

  /** The machine's transition function. */
  function Apply<E>(s: Ring<E>, a: Action<E>): Ring<E>
    requires Wellformed(s) && Enabled(s, a)
  {
    match a
    case ReadReservedTail(tid) =>
      s.(pushSnaps := s.pushSnaps[tid := Snapshot(Reading(s.rTail, s.rTailCount), None)])
    case ReadHead(tid) =>
      s.(pushSnaps := s.pushSnaps[tid := s.pushSnaps[tid].(opposite := Some(Reading(s.head, s.headCount)))])
    case SwapReservedTail(tid, num) => SwapTail(s, tid, num)
    case WriteCell(k, i, v) => WriteAt(s, s.pushes[k], i, v)
    case CommitPush(k) =>
      if s.tail != s.pushes[k].oldIndex then s
      else s.(tail := s.pushes[k].newIndex, tailCount := s.tailCount + s.pushes[k].num,
              pushDone := s.pushDone + 1, log := s.log + Contents(s, s.pushes[k]))
    case ReadReservedHead(tid) =>
      s.(popSnaps := s.popSnaps[tid := Snapshot(Reading(s.rHead, s.rHeadCount), None)])
    case ReadTail(tid) =>
      s.(popSnaps := s.popSnaps[tid := s.popSnaps[tid].(opposite := Some(Reading(s.tail, s.tailCount)))])
    case SwapReservedHead(tid, peek, num) => SwapHead(s, tid, peek, num)
    case CommitPop(k) =>
      if s.head != s.pops[k].oldIndex then s
      else s.(head := s.pops[k].newIndex, headCount := s.headCount + s.pops[k].num, popDone := s.popDone + 1)
  }

  // ---------------------------------------------------------------------------------------------
  // The invariant
  // ---------------------------------------------------------------------------------------------

  /** `rs` are back-to-back reservations covering the counters below `end`. */
  ghost predicate Chain(n: nat, rs: seq<Reservation>, end: nat)
    requires n > 0
  {
    && (forall k :: 0 <= k < |rs| ==>
          && rs[k].num >= 1
          && rs[k].oldIndex == Index(n, rs[k].start)
          && rs[k].newIndex == Index(n, rs[k].start + rs[k].num))
    && (forall k :: 0 <= k < |rs| ==> EndsAtNext(rs, k, end))
    && StartOf(rs, 0, end) == 0
  }

  ghost predicate EndsAtNext(rs: seq<Reservation>, k: nat, end: nat)
    requires k < |rs|
  {
    rs[k].start + rs[k].num == StartOf(rs, k + 1, end)
  }

  function StartOf(rs: seq<Reservation>, k: nat, end: nat): nat {
    if k < |rs| then rs[k].start else end
  }

  ghost predicate Counters<E>(s: Ring<E>)
    requires s.n > 0
  {
    && s.headCount <= s.rHeadCount <= s.tailCount <= s.rTailCount < s.headCount + s.n
    && s.head == Index(s.n, s.headCount) && s.rHead == Index(s.n, s.rHeadCount)
    && s.tail == Index(s.n, s.tailCount) && s.rTail == Index(s.n, s.rTailCount)
  }

  ghost predicate Reservations<E>(s: Ring<E>)
    requires s.n > 0
  {
    && Chain(s.n, s.pushes, s.rTailCount) && s.pushDone <= |s.pushes|
    && s.tailCount == StartOf(s.pushes, s.pushDone, s.rTailCount)
    && Chain(s.n, s.pops, s.rHeadCount) && s.popDone <= |s.pops|
    && s.headCount == StartOf(s.pops, s.popDone, s.rHeadCount)
    && (forall k :: 0 <= k < |s.pops| ==> s.pops[k].num <= s.pops[k].span && s.pops[k].start + s.pops[k].span <= s.tailCount)
  }

  ghost predicate Logged<E>(s: Ring<E>)
    requires s.n > 0 && |s.buff| == s.n
  {
    && |s.log| == s.tailCount
    && (forall c :: s.headCount <= c < s.tailCount ==> s.buff[Index(s.n, c)] == s.log[c])
  }

  ghost predicate ReadingOk(n: nat, r: Reading, bound: nat)
    requires n > 0
  {
    r.index == Index(n, r.count) && r.count <= bound
  }

  /** A snapshot whose reserved counter is still current was completed while it was current. */
  ghost predicate Snapshots<E>(s: Ring<E>)
    requires s.n > 0
  {
    && (forall t :: t in s.pushSnaps ==>
          && ReadingOk(s.n, s.pushSnaps[t].reserved, s.rTailCount)
          && (s.pushSnaps[t].opposite.Some? ==>
                && ReadingOk(s.n, s.pushSnaps[t].opposite.value, s.headCount)
                && (s.pushSnaps[t].reserved.count == s.rTailCount ==>
                      s.rTailCount < s.pushSnaps[t].opposite.value.count + s.n)))
    && (forall t :: t in s.popSnaps ==>
          && ReadingOk(s.n, s.popSnaps[t].reserved, s.rHeadCount)
          && (s.popSnaps[t].opposite.Some? ==>
                && ReadingOk(s.n, s.popSnaps[t].opposite.value, s.tailCount)
                && (s.popSnaps[t].reserved.count == s.rHeadCount ==>
                      s.rHeadCount <= s.popSnaps[t].opposite.value.count)))
  }

  ghost predicate Inv<E>(s: Ring<E>) {
    Wellformed(s) && Counters(s) && Reservations(s) && Logged(s) && Snapshots(s)
  }

  lemma InitInv<E>(buff: seq<E>)
    requires |buff| > 0
    ensures Inv(Init(buff))
  {
  }

  // ---------------------------------------------------------------------------------------------
  // Every step keeps the invariant
  // ---------------------------------------------------------------------------------------------

  lemma CellExact(n: nat, r: Reservation, i: nat)
    requires n > 0 && r.oldIndex == Index(n, r.start) && r.span <= n && i < r.span
    ensures CellOf(n, r, i) == Index(n, r.start + i)
  {
    WindowsExact(n, r.start, r.span, i);
  }

  /** Counters of the live region, less than a lap wide, never share a cell. */
  lemma DistinctCells<E>(s: Ring<E>, a: nat, b: nat)
    requires s.n > 0 && Counters(s) && s.headCount <= a < s.rTailCount && s.headCount <= b < s.rTailCount && a != b
    ensures Index(s.n, a) != Index(s.n, b)
  {
    if a < b {
      SameIndexSameCounter(s.n, a, b);
    } else {
      SameIndexSameCounter(s.n, b, a);
    }
  }

  /** A swap on the reserved index that finds the value it read finds the counter it read. */
  lemma SwapFindsSameCounter(n: nat, read: Reading, count: nat)
    requires n > 0 && read.count <= count < read.count + n && read.index == Index(n, read.count)
    ensures Index(n, count) == read.index <==> count == read.count
  {
    SameIndexSameCounter(n, read.count, count);
  }

  lemma {:induction false} ChainOrder(n: nat, rs: seq<Reservation>, end: nat, j: nat, k: nat)
    requires n > 0 && Chain(n, rs, end) && j < k <= |rs|
    ensures rs[j].start + rs[j].num <= StartOf(rs, k, end)
  {
    if j + 1 < k {
      ChainOrder(n, rs, end, j, k - 1);
    }
    assert EndsAtNext(rs, k - 1, end);
  }

  lemma ChainBounded(n: nat, rs: seq<Reservation>, end: nat)
    requires n > 0 && Chain(n, rs, end)
    ensures forall k :: 0 <= k < |rs| ==> rs[k].start + rs[k].num <= end
  {
    forall k | 0 <= k < |rs|
      ensures rs[k].start + rs[k].num <= end
    {
      ChainOrder(n, rs, end, k, |rs|);
    }
  }

  lemma StartsAppend(rs: seq<Reservation>, end: nat, r: Reservation)
    requires r.start == end
    ensures forall k :: 0 <= k <= |rs| ==> StartOf(rs + [r], k, end + r.num) == StartOf(rs, k, end)
  {
  }

  lemma EndsAppend(rs: seq<Reservation>, end: nat, r: Reservation, k: nat)
    requires k <= |rs| && r.start == end && (k < |rs| ==> EndsAtNext(rs, k, end))
    ensures EndsAtNext(rs + [r], k, end + r.num)
  {
  }

  lemma ChainAppend(n: nat, rs: seq<Reservation>, end: nat, r: Reservation)
    requires n > 0 && Chain(n, rs, end)
    requires r.start == end && 1 <= r.num <= n && r.oldIndex == Index(n, end) && r.newIndex == Advance(n, Index(n, end), r.num)
    ensures Chain(n, rs + [r], end + r.num)
    ensures forall k :: 0 <= k <= |rs| ==> StartOf(rs + [r], k, end + r.num) == StartOf(rs, k, end)
  {
    hide Index, Advance, EndsAtNext, StartOf;
    IndexOfAdvance(n, end, r.num);
    StartsAppend(rs, end, r);
    var rs', end' := rs + [r], end + r.num;
    forall k | 0 <= k < |rs'|
      ensures EndsAtNext(rs', k, end')
    {
      EndsAppend(rs, end, r, k);
    }
  }

  /** Completed snapshots stay sound while counters only grow and no snapshot is added. */
  lemma SnapshotsKept<E>(s: Ring<E>, s': Ring<E>)
    requires s.n > 0 && s'.n == s.n && Snapshots(s)
    requires forall t :: t in s'.pushSnaps ==> t in s.pushSnaps && s'.pushSnaps[t] == s.pushSnaps[t]
    requires forall t :: t in s'.popSnaps ==> t in s.popSnaps && s'.popSnaps[t] == s.popSnaps[t]
    requires s.headCount <= s'.headCount && s.rHeadCount <= s'.rHeadCount
    requires s.tailCount <= s'.tailCount && s.rTailCount <= s'.rTailCount
    ensures Snapshots(s')
  {
    hide Index;
  }

  lemma LoggedKept<E>(s: Ring<E>, s': Ring<E>)
    requires s.n > 0 && |s.buff| == s.n && Logged(s)
    requires s'.n == s.n && s'.buff == s.buff && s'.log == s.log && s'.headCount == s.headCount && s'.tailCount == s.tailCount
    ensures Logged(s')
  {
    hide Index;
  }

  lemma Parts<E>(s: Ring<E>)
    requires Inv(s)
    ensures Wellformed(s) && Counters(s) && Reservations(s) && Logged(s) && Snapshots(s)
    ensures forall t :: HasBoth(s.pushSnaps, t) ==> PushReads(s, t)
    ensures forall t :: HasBoth(s.popSnaps, t) ==> PopReads(s, t)
  {
    hide Index;
  }

  /** What a completed snapshot says of its counters. */
  ghost predicate PushReads<E>(s: Ring<E>, t: nat)
    requires s.n > 0 && HasBoth(s.pushSnaps, t)
  {
    var sn := s.pushSnaps[t];
    && sn.reserved.index == Index(s.n, sn.reserved.count) && sn.reserved.count <= s.rTailCount
    && sn.opposite.value.index == Index(s.n, sn.opposite.value.count) && sn.opposite.value.count <= s.headCount
    && (sn.reserved.count == s.rTailCount ==> s.rTailCount < sn.opposite.value.count + s.n)
  }

  ghost predicate PopReads<E>(s: Ring<E>, t: nat)
    requires s.n > 0 && HasBoth(s.popSnaps, t)
  {
    var sn := s.popSnaps[t];
    && sn.reserved.index == Index(s.n, sn.reserved.count) && sn.reserved.count <= s.rHeadCount
    && sn.opposite.value.index == Index(s.n, sn.opposite.value.count) && sn.opposite.value.count <= s.tailCount
    && (sn.reserved.count == s.rHeadCount ==> s.rHeadCount <= sn.opposite.value.count)
  }

  /** A push reservation that is swapped in within a lap of its first read is granted only when its
      window fits into the free cells as they are now, even if `head` was read long before. */
  lemma GrantedTail<E>(s: Ring<E>, tid: nat, num: nat)
    requires Inv(s) && Enabled(s, SwapReservedTail(tid, num)) && WinsTail(s, tid, num)
    requires s.rTailCount < s.pushSnaps[tid].reserved.count + s.n
    ensures HaveEnoughRoom(s.n, s.rTail, s.head, num) && s.rTailCount + num < s.headCount + s.n
  {
    hide Inv, Index, HaveEnoughRoom, PushReads;
    Parts(s);
    assert PushReads(s, tid);
    TailStillFits(s, tid, num);
  }

  lemma TailStillFits<E>(s: Ring<E>, tid: nat, num: nat)
    requires Wellformed(s) && Counters(s) && HasBoth(s.pushSnaps, tid) && PushReads(s, tid) && WinsTail(s, tid, num)
    requires s.rTailCount < s.pushSnaps[tid].reserved.count + s.n
    ensures HaveEnoughRoom(s.n, s.rTail, s.head, num) && s.rTailCount + num < s.headCount + s.n
  {
    hide Index, HaveEnoughRoom;
    var sn := s.pushSnaps[tid];
    SwapFindsSameCounter(s.n, sn.reserved, s.rTailCount);
    RoomExact(s.n, sn.opposite.value.count, s.rTailCount, num);
    RoomExact(s.n, s.headCount, s.rTailCount, num);
  }

  lemma GrantedHead<E>(s: Ring<E>, tid: nat, peek: nat, num: nat)
    requires Inv(s) && Enabled(s, SwapReservedHead(tid, peek, num)) && WinsHead(s, tid, peek)
    requires s.rHeadCount < s.popSnaps[tid].reserved.count + s.n
    ensures HaveEnoughData(s.n, s.rHead, s.tail, peek) && s.rHeadCount + peek <= s.tailCount
  {
    hide Inv, Index, HaveEnoughData, PopReads;
    Parts(s);
    assert PopReads(s, tid);
    HeadStillThere(s, tid, peek);
  }

  lemma HeadStillThere<E>(s: Ring<E>, tid: nat, peek: nat)
    requires Wellformed(s) && Counters(s) && HasBoth(s.popSnaps, tid) && PopReads(s, tid) && WinsHead(s, tid, peek) && peek >= 1
    requires s.rHeadCount < s.popSnaps[tid].reserved.count + s.n
    ensures HaveEnoughData(s.n, s.rHead, s.tail, peek) && s.rHeadCount + peek <= s.tailCount
  {
    hide Index, HaveEnoughData;
    var sn := s.popSnaps[tid];
    SwapFindsSameCounter(s.n, sn.reserved, s.rHeadCount);
    DataExact(s.n, s.rHeadCount, sn.opposite.value.count, peek);
    DataExact(s.n, s.rHeadCount, s.tailCount, peek);
  }

  lemma InvFrom<E>(s: Ring<E>)
    requires Wellformed(s) && Counters(s) && Reservations(s) && Logged(s) && Snapshots(s)
    ensures Inv(s)
  {
  }

  /** What a granted reservation changes. */
  lemma TailMoved<E>(s: Ring<E>, s': Ring<E>, tid: nat, num: nat)
    requires Wellformed(s) && Counters(s) && Reservations(s) && HasBoth(s.pushSnaps, tid) && 1 <= num
    requires s.rTailCount + num < s.headCount + s.n && Advance(s.n, s.rTail, num) == Index(s.n, s.rTailCount + num)
    requires s' == s.(pushSnaps := s'.pushSnaps, rTail := Advance(s.n, s.rTail, num), rTailCount := s.rTailCount + num,
      pushes := s.pushes + [Reservation(tid, s.rTailCount, num, num, s.rTail, Advance(s.n, s.rTail, num))])
    ensures Wellformed(s') && Counters(s') && Reservations(s')
  {
    hide Index, Advance, Chain;
    ChainAppend(s.n, s.pushes, s.rTailCount, s'.pushes[|s.pushes|]);
  }

  lemma HeadMoved<E>(s: Ring<E>, s': Ring<E>, tid: nat, peek: nat, num: nat)
    requires Wellformed(s) && Counters(s) && Reservations(s) && HasBoth(s.popSnaps, tid) && 1 <= num <= peek
    requires s.rHeadCount + peek <= s.tailCount && Advance(s.n, s.rHead, num) == Index(s.n, s.rHeadCount + num)
    requires s' == s.(popSnaps := s'.popSnaps, rHead := Advance(s.n, s.rHead, num), rHeadCount := s.rHeadCount + num,
      pops := s.pops + [Reservation(tid, s.rHeadCount, num, peek, s.rHead, Advance(s.n, s.rHead, num))])
    ensures Wellformed(s') && Counters(s') && Reservations(s')
  {
    hide Index, Advance, Chain;
    ChainAppend(s.n, s.pops, s.rHeadCount, s'.pops[|s.pops|]);
  }

  /** Dropping a snapshot changes nothing else. */
  lemma SnapsOnly<E>(s: Ring<E>, s': Ring<E>)
    requires Wellformed(s) && Counters(s) && Reservations(s)
    requires s' == s.(pushSnaps := s'.pushSnaps, popSnaps := s'.popSnaps)
    ensures Wellformed(s') && Counters(s') && Reservations(s')
  {
    hide Index, Chain;
  }

  /** A reserving swap on ReservedTail, however late, keeps the ring sound if and only if it fails or
      there is room for it by the indices of now. */
  lemma SwapTailExact<E>(s: Ring<E>, tid: nat, num: nat)
    requires Inv(s) && Enabled(s, SwapReservedTail(tid, num))
    ensures Inv(SwapTail(s, tid, num)) <==> (WinsTail(s, tid, num) ==> HaveEnoughRoom(s.n, s.rTail, s.head, num))
  {
    hide Inv, Index, HaveEnoughRoom, Advance, Wellformed, Counters, Reservations, Logged, Snapshots, WinsTail;
    Parts(s);
    Sizes(s);
    var s' := SwapTail(s, tid, num);
    if WinsTail(s, tid, num) {
      TailRoom(s, num);
      if HaveEnoughRoom(s.n, s.rTail, s.head, num) {
        TailMoved(s, s', tid, num);
        Reassemble(s, s');
      } else {
        TooFar(s');
      }
    } else {
      SnapsOnly(s, s');
      Reassemble(s, s');
    }
  }

  lemma TailRoom<E>(s: Ring<E>, num: nat)
    requires Wellformed(s) && Counters(s)
    ensures HaveEnoughRoom(s.n, s.rTail, s.head, num) <==> s.rTailCount + num < s.headCount + s.n
    ensures HaveEnoughRoom(s.n, s.rTail, s.head, num) ==> Advance(s.n, s.rTail, num) == Index(s.n, s.rTailCount + num)
  {
    hide Index, HaveEnoughRoom, Advance;
    RoomExact(s.n, s.headCount, s.rTailCount, num);
    if num <= s.n {
      IndexOfAdvance(s.n, s.rTailCount, num);
    }
  }

  lemma HeadData<E>(s: Ring<E>, peek: nat, num: nat)
    requires Wellformed(s) && Counters(s) && 1 <= num <= peek
    ensures HaveEnoughData(s.n, s.rHead, s.tail, peek) <==> s.rHeadCount + peek <= s.tailCount
    ensures HaveEnoughData(s.n, s.rHead, s.tail, peek) ==> Advance(s.n, s.rHead, num) == Index(s.n, s.rHeadCount + num)
  {
    hide Index, HaveEnoughData, Advance;
    DataExact(s.n, s.rHeadCount, s.tailCount, peek);
    if num <= s.n {
      IndexOfAdvance(s.n, s.rHeadCount, num);
    }
  }

  lemma TooFar<E>(s: Ring<E>)
    ensures Inv(s) ==> s.rTailCount < s.headCount + s.n
    ensures Inv(s) ==> forall k :: 0 <= k < |s.pops| ==> s.pops[k].start + s.pops[k].span <= s.tailCount
  {
  }

  lemma Reassemble<E>(s: Ring<E>, s': Ring<E>)
    requires s.n > 0 && |s.buff| == s.n && Snapshots(s) && Logged(s)
    requires s'.n == s.n && s'.buff == s.buff && s'.log == s.log && s'.headCount == s.headCount && s'.tailCount == s.tailCount
    requires s.rHeadCount <= s'.rHeadCount && s.rTailCount <= s'.rTailCount
    requires forall t :: t in s'.pushSnaps ==> t in s.pushSnaps && s'.pushSnaps[t] == s.pushSnaps[t]
    requires forall t :: t in s'.popSnaps ==> t in s.popSnaps && s'.popSnaps[t] == s.popSnaps[t]
    requires Wellformed(s') && Counters(s') && Reservations(s')
    ensures Inv(s')
  {
    hide Inv, Index, Wellformed, Counters, Reservations, Logged, Snapshots;
    SnapshotsKept(s, s');
    LoggedKept(s, s');
    InvFrom(s');
  }

  lemma Sizes<E>(s: Ring<E>)
    requires Wellformed(s)
    ensures s.n > 0 && |s.buff| == s.n
  {
  }

  /** The same for ReservedHead: the peeked elements must be committed by the indices of now. */
  lemma SwapHeadExact<E>(s: Ring<E>, tid: nat, peek: nat, num: nat)
    requires Inv(s) && Enabled(s, SwapReservedHead(tid, peek, num))
    ensures Inv(SwapHead(s, tid, peek, num)) <==> (WinsHead(s, tid, peek) ==> HaveEnoughData(s.n, s.rHead, s.tail, peek))
  {
    hide Inv, Index, HaveEnoughData, Advance, Wellformed, Counters, Reservations, Logged, Snapshots, WinsHead;
    Parts(s);
    Sizes(s);
    var s' := SwapHead(s, tid, peek, num);
    if WinsHead(s, tid, peek) {
      HeadData(s, peek, num);
      if HaveEnoughData(s.n, s.rHead, s.tail, peek) {
        HeadMoved(s, s', tid, peek, num);
        Reassemble(s, s');
      } else {
        TooFar(s');
        assert s'.pops[|s.pops|].start + s'.pops[|s.pops|].span > s'.tailCount;
      }
    } else {
      SnapsOnly(s, s');
      Reassemble(s, s');
    }
  }

  lemma WriteCellInv<E>(s: Ring<E>, k: nat, i: nat, v: E)
    requires Inv(s) && Enabled(s, WriteCell(k, i, v))
    ensures Inv(Apply(s, WriteCell(k, i, v)))
  {
    hide Index;
    var s' := Apply(s, WriteCell(k, i, v));
    var r := s.pushes[k];
    CellExact(s.n, r, i);
    PushWindowBounds(s, k);
    forall c | s'.headCount <= c < s'.tailCount
      ensures s'.buff[Index(s.n, c)] == s'.log[c]
    {
      DistinctCells(s, c, r.start + i);
    }
  }

  /** Outstanding push windows lie between the committed and the reserved tail. */
  lemma PushWindowBounds<E>(s: Ring<E>, k: nat)
    requires Inv(s) && s.pushDone <= k < |s.pushes|
    ensures s.tailCount <= s.pushes[k].start
    ensures s.pushes[k].start + s.pushes[k].num <= s.rTailCount
    ensures k != s.pushDone ==> s.tailCount < s.pushes[k].start
  {
    hide Index;
    ChainOrder(s.n, s.pushes, s.rTailCount, k, |s.pushes|);
    if s.pushDone < k {
      ChainOrder(s.n, s.pushes, s.rTailCount, s.pushDone, k);
    }
  }

  /** Outstanding pop windows lie between the committed head and the committed tail. */
  lemma PopWindowBounds<E>(s: Ring<E>, k: nat)
    requires Inv(s) && s.popDone <= k < |s.pops|
    ensures s.headCount <= s.pops[k].start
    ensures s.pops[k].start + s.pops[k].num <= s.rHeadCount
    ensures s.pops[k].start + s.pops[k].span <= s.tailCount
    ensures k != s.popDone ==> s.headCount < s.pops[k].start
  {
    hide Index;
    ChainOrder(s.n, s.pops, s.rHeadCount, k, |s.pops|);
    if s.popDone < k {
      ChainOrder(s.n, s.pops, s.rHeadCount, s.popDone, k);
    }
  }

  /** The compare-and-swap of commitPush succeeds for exactly one outstanding reservation: the
      oldest.  Nothing else (ready flags, wake-ups) is needed for that. */
  lemma CommitPushOnlyOldest<E>(s: Ring<E>, k: nat)
    requires Inv(s) && s.pushDone <= k < |s.pushes|
    ensures s.tail == s.pushes[k].oldIndex <==> k == s.pushDone
  {
    hide Index;
    PushWindowBounds(s, k);
    SameIndexSameCounter(s.n, s.tailCount, s.pushes[k].start);
  }

  lemma CommitPopOnlyOldest<E>(s: Ring<E>, k: nat)
    requires Inv(s) && s.popDone <= k < |s.pops|
    ensures s.head == s.pops[k].oldIndex <==> k == s.popDone
  {
    hide Index;
    PopWindowBounds(s, k);
    SameIndexSameCounter(s.n, s.headCount, s.pops[k].start);
  }

  lemma CommitPushLogged<E>(s: Ring<E>, r: Reservation, c: nat)
    requires Inv(s) && r in s.pushes && r.start == s.tailCount
    requires s.headCount <= c < s.tailCount + r.num
    ensures s.buff[Index(s.n, c)] == (s.log + Contents(s, r))[c]
  {
    hide Index, CellOf;
    if c >= s.tailCount {
      CellExact(s.n, r, c - s.tailCount);
    }
  }

  lemma CommitPushInv<E>(s: Ring<E>, k: nat)
    requires Inv(s) && Enabled(s, CommitPush(k))
    ensures Inv(Apply(s, CommitPush(k)))
  {
    hide Index, Inv, Wellformed, Counters, Reservations, Snapshots, Contents;
    Parts(s);
    Sizes(s);
    CommitPushOnlyOldest(s, k);
    if k == s.pushDone {
      var s' := Apply(s, CommitPush(k));
      OldestCommitted(s, s');
      forall c | s.headCount <= c < s.tailCount + s.pushes[k].num
        ensures s.buff[Index(s.n, c)] == (s.log + Contents(s, s.pushes[k]))[c]
      {
        CommitPushLogged(s, s.pushes[k], c);
      }
      SnapshotsKept(s, s');
      InvFrom(s');
    }
  }

  lemma OldestCommitted<E>(s: Ring<E>, s': Ring<E>)
    requires Inv(s) && s.pushDone < |s.pushes| && s' == Apply(s, CommitPush(s.pushDone)) && s'.pushDone == s.pushDone + 1
    ensures s.pushes[s.pushDone].oldIndex < s.n && s.pushes[s.pushDone].span <= s.n
    ensures s.pushes[s.pushDone].start == s.tailCount && |Contents(s, s.pushes[s.pushDone])| == s.pushes[s.pushDone].num
    ensures s.tailCount <= s'.tailCount && |s.log| == s.tailCount
    ensures Wellformed(s') && Counters(s') && Reservations(s')
  {
    hide Index, Contents;
    PushWindowBounds(s, s.pushDone);
    assert EndsAtNext(s.pushes, s.pushDone, s.rTailCount);
  }

  lemma CommitPopInv<E>(s: Ring<E>, k: nat)
    requires Inv(s) && Enabled(s, CommitPop(k))
    ensures Inv(Apply(s, CommitPop(k)))
  {
    hide Index;
    CommitPopOnlyOldest(s, k);
    if k == s.popDone {
      PopWindowBounds(s, k);
      assert EndsAtNext(s.pops, k, s.rHeadCount);
    }
  }

  lemma ReadInv<E>(s: Ring<E>, a: Action<E>)
    requires Inv(s) && Enabled(s, a)
    requires a.ReadReservedTail? || a.ReadHead? || a.ReadReservedHead? || a.ReadTail?
    ensures Inv(Apply(s, a))
  {
    hide Inv, Index, Wellformed, Reservations, Logged, PushReads, PopReads;
    Parts(s);
    Sizes(s);
    var s' := Apply(s, a);
    SnapsOnly(s, s');
    LoggedKept(s, s');
    InvFrom(s');
  }

  /** Within a lap of its first read, a reserving swap makes a reservation exactly when nobody else has
      reserved since that read and the counters that were read leave room: it is retried only because
      another thread got through, and refused only on what was read. */
  lemma PushGrantedExactly<E>(s: Ring<E>, tid: nat, num: nat)
    requires Inv(s) && Enabled(s, SwapReservedTail(tid, num))
    requires s.rTailCount < s.pushSnaps[tid].reserved.count + s.n
    ensures var sn, s' := s.pushSnaps[tid], Apply(s, SwapReservedTail(tid, num));
      if sn.reserved.count == s.rTailCount && s.rTailCount + num < sn.opposite.value.count + s.n
      then s'.pushes == s.pushes + [Reservation(tid, s.rTailCount, num, num, s.rTail, Index(s.n, s.rTailCount + num))]
           && s'.rTailCount == s.rTailCount + num
      else s' == s.(pushSnaps := s'.pushSnaps)
  {
    hide Inv, Index, HaveEnoughRoom, Advance, PushReads;
    Parts(s);
    assert PushReads(s, tid);
    PushWinsExactly(s, tid, num);
    if WinsTail(s, tid, num) {
      GrantedTail(s, tid, num);
      TailRoom(s, num);
    }
  }

  lemma PushWinsExactly<E>(s: Ring<E>, tid: nat, num: nat)
    requires Wellformed(s) && Counters(s) && HasBoth(s.pushSnaps, tid) && PushReads(s, tid)
    requires s.rTailCount < s.pushSnaps[tid].reserved.count + s.n
    ensures var sn := s.pushSnaps[tid];
      WinsTail(s, tid, num) <==> sn.reserved.count == s.rTailCount && s.rTailCount + num < sn.opposite.value.count + s.n
  {
    hide Index, HaveEnoughRoom;
    var sn := s.pushSnaps[tid];
    SwapFindsSameCounter(s.n, sn.reserved, s.rTailCount);
    if sn.reserved.count == s.rTailCount {
      RoomExact(s.n, sn.opposite.value.count, s.rTailCount, num);
    }
  }

  lemma PopGrantedExactly<E>(s: Ring<E>, tid: nat, peek: nat, num: nat)
    requires Inv(s) && Enabled(s, SwapReservedHead(tid, peek, num))
    requires s.rHeadCount < s.popSnaps[tid].reserved.count + s.n
    ensures var sn, s' := s.popSnaps[tid], Apply(s, SwapReservedHead(tid, peek, num));
      if sn.reserved.count == s.rHeadCount && s.rHeadCount + peek <= sn.opposite.value.count
      then s'.pops == s.pops + [Reservation(tid, s.rHeadCount, num, peek, s.rHead, Index(s.n, s.rHeadCount + num))]
           && s'.rHeadCount == s.rHeadCount + num
      else s' == s.(popSnaps := s'.popSnaps)
  {
    hide Inv, Index, HaveEnoughData, Advance, PopReads;
    Parts(s);
    assert PopReads(s, tid);
    PopWinsExactly(s, tid, peek);
    if WinsHead(s, tid, peek) {
      GrantedHead(s, tid, peek, num);
      HeadData(s, peek, num);
    }
  }

  lemma PopWinsExactly<E>(s: Ring<E>, tid: nat, peek: nat)
    requires Wellformed(s) && Counters(s) && HasBoth(s.popSnaps, tid) && PopReads(s, tid) && peek >= 1
    requires s.rHeadCount < s.popSnaps[tid].reserved.count + s.n
    ensures var sn := s.popSnaps[tid];
      WinsHead(s, tid, peek) <==> sn.reserved.count == s.rHeadCount && s.rHeadCount + peek <= sn.opposite.value.count
  {
    hide Index, HaveEnoughData;
    var sn := s.popSnaps[tid];
    SwapFindsSameCounter(s.n, sn.reserved, s.rHeadCount);
    if sn.reserved.count == s.rHeadCount {
      DataExact(s.n, s.rHeadCount, sn.opposite.value.count, peek);
    }
  }

  /** A reserving swap that wins with indices that were read a lap ago or more, although by now there
      is no room, or no data, for it. */
  predicate Overruns<E>(s: Ring<E>, a: Action<E>)
    requires Wellformed(s) && Enabled(s, a)
  {
    match a
    case SwapReservedTail(tid, num) => WinsTail(s, tid, num) && !HaveEnoughRoom(s.n, s.rTail, s.head, num)
    case SwapReservedHead(tid, peek, _) => WinsHead(s, tid, peek) && !HaveEnoughData(s.n, s.rHead, s.tail, peek)
    case _ => false
  }

  /** One step of any thread keeps the ring sound if and only if it is not such a swap. */
  lemma StepInv<E>(s: Ring<E>, a: Action<E>)
    requires Inv(s) && Enabled(s, a)
    ensures Inv(Apply(s, a)) <==> !Overruns(s, a)
  {
    hide Inv, Wellformed, WinsTail, WinsHead, HaveEnoughRoom, HaveEnoughData;
    match a
    case SwapReservedTail(tid, num) => SwapTailExact(s, tid, num);
    case WriteCell(k, i, v) => WriteCellInv(s, k, i, v);
    case CommitPush(k) => CommitPushInv(s, k);
    case SwapReservedHead(tid, peek, num) => SwapHeadExact(s, tid, peek, num);
    case CommitPop(k) => CommitPopInv(s, k);
    case _ => ReadInv(s, a);
  }

  /** The swap comes less than a lap after the reserved index was read. */
  predicate WithinLap<E>(s: Ring<E>, a: Action<E>)
    requires Wellformed(s) && Enabled(s, a)
  {
    match a
    case SwapReservedTail(tid, _) => s.rTailCount < s.pushSnaps[tid].reserved.count + s.n
    case SwapReservedHead(tid, _, _) => s.rHeadCount < s.popSnaps[tid].reserved.count + s.n
    case _ => true
  }

  lemma WithinLapSuffices<E>(s: Ring<E>, a: Action<E>)
    requires Inv(s) && Enabled(s, a) && WithinLap(s, a)
    ensures !Overruns(s, a)
  {
    hide Inv, WinsTail, WinsHead, HaveEnoughRoom, HaveEnoughData;
    InvLengths(s);
    if Overruns(s, a) {
      match a
      case SwapReservedTail(tid, num) => GrantedTail(s, tid, num);
      case SwapReservedHead(tid, peek, num) => GrantedHead(s, tid, peek, num);
    }
  }

  // ---------------------------------------------------------------------------------------------
  // Refusals
  // ---------------------------------------------------------------------------------------------

  /** A pusher that read ReservedTail as the index of counter `c` and has read `head` just now: each
      refusal is justified by the indices of this moment if and only if Head has not gone beyond
      `c` in between. */
  lemma PushRefusalsJust<E>(s: Ring<E>, c: nat)
    requires Inv(s) && c <= s.rTailCount < c + s.n
    ensures s.n > 0
    ensures (forall num: nat :: num >= 1 && !HaveEnoughRoom(s.n, Index(s.n, c), s.head, num) ==>
              !HaveEnoughRoom(s.n, s.rTail, s.head, num)) <==> s.headCount <= c
  {
    hide Index, HaveEnoughRoom, Inv, Wellformed, Reservations, Logged, Snapshots;
    Parts(s);
    Sizes(s);
    if s.headCount <= c {
      forall num: nat | num >= 1 && !HaveEnoughRoom(s.n, Index(s.n, c), s.head, num)
        ensures !HaveEnoughRoom(s.n, s.rTail, s.head, num)
      {
        RoomExact(s.n, s.headCount, c, num);
        RoomExact(s.n, s.headCount, s.rTailCount, num);
      }
    } else {
      var num := s.headCount - c;
      RefusedBehind(s.n, c, num);
      RoomExact(s.n, s.headCount, s.rTailCount, num);
      assert num >= 1 && !HaveEnoughRoom(s.n, Index(s.n, c), s.head, num) && HaveEnoughRoom(s.n, s.rTail, s.head, num);
    }
  }

  /** A reserved index behind `head` looks like a full ring. */
  lemma RefusedBehind(n: nat, c: nat, d: nat)
    requires 0 < d < n
    ensures !HaveEnoughRoom(n, Index(n, c), Index(n, c + d), d)
  {
    hide Index;
    IndexOfAdvance(n, c, d);
  }

  /** A popper that read ReservedHead as the index of counter `c` and has read `tail` just now: each
      refusal is justified if and only if Tail has gone less than a lap beyond `c`. */
  lemma PopRefusalsJust<E>(s: Ring<E>, c: nat)
    requires Inv(s) && c <= s.rHeadCount < c + s.n
    ensures s.n > 0
    ensures (forall peek: nat :: peek >= 1 && !HaveEnoughData(s.n, Index(s.n, c), s.tail, peek) ==>
              !HaveEnoughData(s.n, s.rHead, s.tail, peek)) <==> s.tailCount < c + s.n
  {
    hide Index, HaveEnoughData, Inv, Wellformed, Reservations, Logged, Snapshots;
    Parts(s);
    Sizes(s);
    if s.tailCount < c + s.n {
      forall peek: nat | peek >= 1 && !HaveEnoughData(s.n, Index(s.n, c), s.tail, peek)
        ensures !HaveEnoughData(s.n, s.rHead, s.tail, peek)
      {
        DataExact(s.n, c, s.tailCount, peek);
        DataExact(s.n, s.rHeadCount, s.tailCount, peek);
      }
    } else {
      var lap, peek := s.tailCount - s.n, s.tailCount - s.n - c + 1;
      LapIndex(s.n, lap);
      DataExact(s.n, c, lap, peek);
      DataExact(s.n, s.rHeadCount, s.tailCount, peek);
      assert peek >= 1 && !HaveEnoughData(s.n, Index(s.n, c), s.tail, peek) && HaveEnoughData(s.n, s.rHead, s.tail, peek);
    }
  }

  lemma LapIndex(n: nat, c: nat)
    requires n > 0
    ensures Index(n, c + n) == Index(n, c)
  {
  }

  // ---------------------------------------------------------------------------------------------
  // Whole runs
  // ---------------------------------------------------------------------------------------------

  ghost predicate CanRun<E>(s: Ring<E>, run: seq<Action<E>>)
    decreases |run|
  {
    run == [] || (Wellformed(s) && Enabled(s, run[0]) && CanRun(Apply(s, run[0]), run[1..]))
  }

  ghost function Run<E>(s: Ring<E>, run: seq<Action<E>>): Ring<E>
    requires CanRun(s, run)
    decreases |run|
  {
    if run == [] then s else Run(Apply(s, run[0]), run[1..])
  }

  ghost predicate NeverOverruns<E>(s: Ring<E>, run: seq<Action<E>>)
    requires CanRun(s, run)
    decreases |run|
  {
    run == [] || (!Overruns(s, run[0]) && NeverOverruns(Apply(s, run[0]), run[1..]))
  }

  /** The ring is sound in every state of the run. */
  ghost predicate AlwaysSound<E>(s: Ring<E>, run: seq<Action<E>>)
    requires CanRun(s, run)
    decreases |run|
  {
    Inv(s) && (run == [] || AlwaysSound(Apply(s, run[0]), run[1..]))
  }

  /** Over whole runs: the ring stays sound if and only if no swap overruns it. */
  lemma {:induction false} RunSound<E>(s: Ring<E>, run: seq<Action<E>>)
    requires Inv(s) && CanRun(s, run)
    ensures AlwaysSound(s, run) <==> NeverOverruns(s, run)
    decreases |run|
  {
    hide Inv, Wellformed, Apply, Overruns, Enabled;
    if run != [] {
      StepInv(s, run[0]);
      if !Overruns(s, run[0]) {
        RunSound(Apply(s, run[0]), run[1..]);
      } else {
        Unsound(Apply(s, run[0]), run[1..]);
      }
    }
  }

  lemma Unsound<E>(s: Ring<E>, run: seq<Action<E>>)
    requires !Inv(s) && CanRun(s, run)
    ensures !AlwaysSound(s, run)
  {
  }

  lemma {:induction false} RunInv<E>(s: Ring<E>, run: seq<Action<E>>)
    requires Inv(s) && CanRun(s, run) && NeverOverruns(s, run)
    ensures Inv(Run(s, run))
    decreases |run|
  {
    hide Inv, Wellformed, Apply, Overruns, Enabled;
    if run != [] {
      StepInv(s, run[0]);
      RunInv(Apply(s, run[0]), run[1..]);
    }
  }

  /** In particular no swap overruns the ring while every swap comes within a lap of its read. */
  ghost predicate AlwaysWithinLap<E>(s: Ring<E>, run: seq<Action<E>>)
    requires CanRun(s, run)
    decreases |run|
  {
    run == [] || (WithinLap(s, run[0]) && AlwaysWithinLap(Apply(s, run[0]), run[1..]))
  }

  lemma {:induction false} PunctualRun<E>(s: Ring<E>, run: seq<Action<E>>)
    requires Inv(s) && CanRun(s, run) && AlwaysWithinLap(s, run)
    ensures NeverOverruns(s, run)
    decreases |run|
  {
    hide Inv, Wellformed, Apply, Overruns, Enabled, WithinLap;
    if run != [] {
      WithinLapSuffices(s, run[0]);
      StepInv(s, run[0]);
      PunctualRun(Apply(s, run[0]), run[1..]);
    }
  }

  /** Two windows without a common cell. */
  ghost predicate Apart(n: nat, p: Reservation, q: Reservation)
    requires p.oldIndex < n && q.oldIndex < n
  {
    forall i: nat, j: nat :: i < p.span && j < q.span ==> CellOf(n, p, i) != CellOf(n, q, j)
  }

  /** A push window shares no cell with another push window, with any window being read, or with
      data that is committed and still held by the queue or by a pop. */
  ghost predicate WindowsDisjoint<E>(s: Ring<E>)
    requires Wellformed(s)
  {
    && (forall j, k :: s.pushDone <= j < |s.pushes| && s.pushDone <= k < |s.pushes| && j != k ==>
          Apart(s.n, s.pushes[j], s.pushes[k]))
    && (forall j, k :: s.pushDone <= j < |s.pushes| && s.popDone <= k < |s.pops| ==>
          Apart(s.n, s.pushes[j], s.pops[k]))
    && (forall j, i: nat, c: nat ::
          s.pushDone <= j < |s.pushes| && i < s.pushes[j].span && s.headCount <= c < s.tailCount ==>
          CellOf(s.n, s.pushes[j], i) != Index(s.n, c))
  }

  lemma PushWindowCell<E>(s: Ring<E>, j: nat, i: nat)
    requires Inv(s) && s.pushDone <= j < |s.pushes| && i < s.pushes[j].span
    ensures CellOf(s.n, s.pushes[j], i) == Index(s.n, s.pushes[j].start + i)
    ensures s.tailCount <= s.pushes[j].start + i < s.rTailCount
  {
    PushWindowBounds(s, j);
    CellExact(s.n, s.pushes[j], i);
  }

  lemma PopWindowCell<E>(s: Ring<E>, k: nat, i: nat)
    requires Inv(s) && s.popDone <= k < |s.pops| && i < s.pops[k].span
    ensures CellOf(s.n, s.pops[k], i) == Index(s.n, s.pops[k].start + i)
    ensures s.headCount <= s.pops[k].start + i < s.tailCount
  {
    PopWindowBounds(s, k);
    CellExact(s.n, s.pops[k], i);
  }

  lemma PushesApart<E>(s: Ring<E>, j: nat, k: nat)
    requires Inv(s) && s.pushDone <= j < |s.pushes| && s.pushDone <= k < |s.pushes| && j != k
    ensures Apart(s.n, s.pushes[j], s.pushes[k])
  {
    hide Index;
    if j < k {
      ChainOrder(s.n, s.pushes, s.rTailCount, j, k);
    } else {
      ChainOrder(s.n, s.pushes, s.rTailCount, k, j);
    }
    forall i: nat, i': nat | i < s.pushes[j].span && i' < s.pushes[k].span
      ensures CellOf(s.n, s.pushes[j], i) != CellOf(s.n, s.pushes[k], i')
    {
      PushWindowCell(s, j, i);
      PushWindowCell(s, k, i');
      DistinctCells(s, s.pushes[j].start + i, s.pushes[k].start + i');
    }
  }

  lemma PushAndPopApart<E>(s: Ring<E>, j: nat, k: nat)
    requires Inv(s) && s.pushDone <= j < |s.pushes| && s.popDone <= k < |s.pops|
    ensures Apart(s.n, s.pushes[j], s.pops[k])
  {
    hide Index;
    forall i: nat, i': nat | i < s.pushes[j].span && i' < s.pops[k].span
      ensures CellOf(s.n, s.pushes[j], i) != CellOf(s.n, s.pops[k], i')
    {
      PushWindowCell(s, j, i);
      PopWindowCell(s, k, i');
      DistinctCells(s, s.pushes[j].start + i, s.pops[k].start + i');
    }
  }

  lemma InvDisjoint<E>(s: Ring<E>)
    requires Inv(s)
    ensures WindowsDisjoint(s)
  {
    forall j, k | s.pushDone <= j < |s.pushes| && s.pushDone <= k < |s.pushes| && j != k
      ensures Apart(s.n, s.pushes[j], s.pushes[k])
    {
      PushesApart(s, j, k);
    }
    forall j, k | s.pushDone <= j < |s.pushes| && s.popDone <= k < |s.pops|
      ensures Apart(s.n, s.pushes[j], s.pops[k])
    {
      PushAndPopApart(s, j, k);
    }
    forall j, i: nat, c: nat | s.pushDone <= j < |s.pushes| && i < s.pushes[j].span && s.headCount <= c < s.tailCount
      ensures CellOf(s.n, s.pushes[j], i) != Index(s.n, c)
    {
      PushWindowCell(s, j, i);
      DistinctCells(s, s.pushes[j].start + i, c);
    }
  }

  /** Ring safety: in every state of every run that no swap overruns, of any number of threads. */
  lemma RingSafety<E>(buff: seq<E>, run: seq<Action<E>>)
    requires |buff| > 0 && CanRun(Init(buff), run) && NeverOverruns(Init(buff), run)
    ensures var s := Run(Init(buff), run);
      && Wellformed(s)
      && s.headCount <= s.rHeadCount <= s.tailCount <= s.rTailCount <= s.headCount + s.n - 1
      && WindowsDisjoint(s)
  {
    InitInv(buff);
    RunInv(Init(buff), run);
    InvDisjoint(Run(Init(buff), run));
  }

  // ---------------------------------------------------------------------------------------------
  // The ring is a FIFO queue
  // ---------------------------------------------------------------------------------------------

  /** The abstract queue: committed and not yet reserved by a pop. */
  function Queue<E>(s: Ring<E>): seq<E>
    requires s.rHeadCount <= s.tailCount <= |s.log|
  {
    s.log[s.rHeadCount..s.tailCount]
  }

  /** A pop window shows exactly the logged elements at its position, for as long as it is held. */
  lemma PopWindowShowsLog<E>(s: Ring<E>, k: nat)
    requires Inv(s) && s.popDone <= k < |s.pops|
    ensures s.pops[k].start + s.pops[k].span <= |s.log|
    ensures Contents(s, s.pops[k]) == s.log[s.pops[k].start..s.pops[k].start + s.pops[k].span]
  {
    hide Index;
    PopWindowBounds(s, k);
    forall i: nat | i < s.pops[k].span
      ensures Contents(s, s.pops[k])[i] == s.log[s.pops[k].start + i]
    {
      PopWindowCell(s, k, i);
    }
  }

  /** Log and reservation histories only grow. */
  lemma ApplyGrows<E>(s: Ring<E>, a: Action<E>)
    requires Wellformed(s) && Enabled(s, a)
    ensures s.log <= Apply(s, a).log && s.pops <= Apply(s, a).pops && s.pushes <= Apply(s, a).pushes
  {
  }

  lemma CommitAppends<E>(s: Ring<E>, k: nat)
    requires Inv(s) && Enabled(s, CommitPush(k))
    ensures Inv(Apply(s, CommitPush(k)))
    ensures Queue(Apply(s, CommitPush(k))) ==
      if k == s.pushDone then Queue(s) + Contents(s, s.pushes[k]) else Queue(s)
  {
    hide Index, Inv, Wellformed, Contents;
    InvLengths(s);
    CommitPushInv(s, k);
    InvLengths(Apply(s, CommitPush(k)));
    CommitPushOnlyOldest(s, k);
  }

  lemma SwapHeadEffect<E>(s: Ring<E>, tid: nat, peek: nat, num: nat)
    requires Wellformed(s) && HasBoth(s.popSnaps, tid)
    ensures var s' := SwapHead(s, tid, peek, num);
      && s'.log == s.log && s'.tailCount == s.tailCount && s'.popDone == s.popDone
      && if |s'.pops| > |s.pops|
         then s'.rHeadCount == s.rHeadCount + num && |s'.pops| == |s.pops| + 1 &&
              s'.pops[|s.pops|].start == s.rHeadCount && s'.pops[|s.pops|].span == peek
         else s'.rHeadCount == s.rHeadCount
  {
  }

  lemma SwapTakes<E>(s: Ring<E>, tid: nat, peek: nat, num: nat)
    requires Inv(s) && Enabled(s, SwapReservedHead(tid, peek, num)) && !Overruns(s, SwapReservedHead(tid, peek, num))
    ensures var s' := SwapHead(s, tid, peek, num);
      && Inv(s') && Wellformed(s')
      && if |s'.pops| > |s.pops|
         then |Queue(s)| >= peek && Queue(s') == Queue(s)[num..] && Contents(s', s'.pops[|s.pops|]) == Queue(s)[..peek]
         else Queue(s') == Queue(s)
  {
    hide Index;
    hide Inv, SwapHead, Contents, Wellformed, WinsHead, HaveEnoughData;
    InvLengths(s);
    SwapHeadExact(s, tid, peek, num);
    InvLengths(SwapHead(s, tid, peek, num));
    SwapHeadEffect(s, tid, peek, num);
    var s' := SwapHead(s, tid, peek, num);
    if |s'.pops| > |s.pops| {
      PopWindowShowsLog(s', |s.pops|);
      assert s.log[s.rHeadCount..s.tailCount][..peek] == s.log[s.rHeadCount..s.rHeadCount + peek];
    }
  }

  lemma InvLengths<E>(s: Ring<E>)
    requires Inv(s)
    ensures s.rHeadCount <= s.tailCount == |s.log| && s.popDone <= |s.pops| && Wellformed(s)
  {
  }

  /** Every step is a step of the FIFO queue: a successful commit appends the window just filled,
      a successful pop reservation takes its elements off the front and shows `peek` of them, and
      every other step leaves the queue alone. */
  lemma RingRefinesFifo<E>(s: Ring<E>, a: Action<E>)
    requires Inv(s) && Enabled(s, a) && !Overruns(s, a)
    ensures Inv(Apply(s, a))
    ensures match a
      case CommitPush(k) =>
        Queue(Apply(s, a)) == if k == s.pushDone then Queue(s) + Contents(s, s.pushes[k]) else Queue(s)
      case SwapReservedHead(_, peek, num) =>
        var s' := Apply(s, a);
        if |s'.pops| > |s.pops|
        then |Queue(s)| >= peek && Queue(s') == Queue(s)[num..] && Contents(s', s'.pops[|s.pops|]) == Queue(s)[..peek]
        else Queue(s') == Queue(s)
      case _ => Queue(Apply(s, a)) == Queue(s)
  {
    hide Index;
    match a {
      case CommitPush(k) =>
        CommitAppends(s, k);
      case SwapReservedHead(tid, peek, num) =>
        SwapTakes(s, tid, peek, num);
      case _ =>
        StepInv(s, a);
    }
  }

  lemma {:induction false} HistoryGrows<E>(s: Ring<E>, run: seq<Action<E>>)
    requires Inv(s) && CanRun(s, run) && NeverOverruns(s, run)
    ensures s.log <= Run(s, run).log && s.pops <= Run(s, run).pops
    decreases |run|
  {
    if run != [] {
      StepInv(s, run[0]);
      ApplyGrows(s, run[0]);
      HistoryGrows(Apply(s, run[0]), run[1..]);
    }
  }

  /** The elements the pops moved, in the order of their reservations. */
  ghost function Delivered<E>(log: seq<E>, pops: seq<Reservation>): seq<E>
    requires forall k :: 0 <= k < |pops| ==> pops[k].start + pops[k].num <= |log|
  {
    if pops == [] then []
    else
      var last := pops[|pops| - 1];
      Delivered(log, pops[..|pops| - 1]) + log[last.start..last.start + last.num]
  }

  lemma {:induction false} DeliveredIsPrefix<E>(n: nat, log: seq<E>, pops: seq<Reservation>, end: nat)
    requires n > 0 && Chain(n, pops, end) && end <= |log|
    ensures forall k :: 0 <= k < |pops| ==> pops[k].start + pops[k].num <= |log|
    ensures Delivered(log, pops) == log[..end]
    decreases |pops|
  {
    hide Index;
    ChainBounded(n, pops, end);
    if pops != [] {
      var init, last := pops[..|pops| - 1], pops[|pops| - 1];
      assert EndsAtNext(pops, |pops| - 1, end);
      forall k | 0 <= k < |init|
        ensures EndsAtNext(init, k, last.start)
      {
        assert EndsAtNext(pops, k, end);
      }
      DeliveredIsPrefix(n, log, init, last.start);
      assert log[..last.start] + log[last.start..end] == log[..end];
    }
  }

  /** FIFO over whole runs: what a pop window shows when it is granted is what the log of any later
      state holds there; consecutive windows start where the previous one popped to (so with
      peek > pop they slide); and all that was popped so far is a prefix of all that was committed. */
  lemma PopsReadCommittedPrefix<E>(buff: seq<E>, before: seq<Action<E>>, after: seq<Action<E>>, k: nat)
    requires |buff| > 0 && CanRun(Init(buff), before) && CanRun(Run(Init(buff), before), after)
    requires NeverOverruns(Init(buff), before) && NeverOverruns(Run(Init(buff), before), after)
    requires var s := Run(Init(buff), before); s.popDone <= k < |s.pops|
    ensures var s, t := Run(Init(buff), before), Run(Run(Init(buff), before), after);
      var p := s.pops[k];
      && Wellformed(s)
      && p.start + p.span <= |t.log| && k < |t.pops|
      && Contents(s, p) == t.log[p.start..p.start + p.span]
      && t.pops[k] == p
      && StartOf(t.pops, k + 1, t.rHeadCount) == p.start + p.num
      && t.rHeadCount <= |t.log|
      && (forall j :: 0 <= j < |t.pops| ==> t.pops[j].start + t.pops[j].num <= |t.log|)
      && Delivered(t.log, t.pops) == t.log[..t.rHeadCount]
  {
    hide Index;
    InitInv(buff);
    RunInv(Init(buff), before);
    FifoFrom(Run(Init(buff), before), after, k);
  }

  lemma FifoFrom<E>(s: Ring<E>, after: seq<Action<E>>, k: nat)
    requires Inv(s) && CanRun(s, after) && NeverOverruns(s, after) && s.popDone <= k < |s.pops|
    ensures var t, p := Run(s, after), s.pops[k];
      && p.start + p.span <= |t.log| && k < |t.pops|
      && Contents(s, p) == t.log[p.start..p.start + p.span]
      && t.pops[k] == p
      && StartOf(t.pops, k + 1, t.rHeadCount) == p.start + p.num
      && t.rHeadCount <= |t.log|
      && (forall j :: 0 <= j < |t.pops| ==> t.pops[j].start + t.pops[j].num <= |t.log|)
      && Delivered(t.log, t.pops) == t.log[..t.rHeadCount]
  {
    hide *;
    RunInv(s, after);
    HistoryGrows(s, after);
    PopWindowShowsLog(s, k);
    InvDelivers(Run(s, after), k);
  }

  lemma InvDelivers<E>(t: Ring<E>, k: nat)
    requires Inv(t) && k < |t.pops|
    ensures t.rHeadCount <= |t.log|
    ensures forall j :: 0 <= j < |t.pops| ==> t.pops[j].start + t.pops[j].num <= |t.log|
    ensures Delivered(t.log, t.pops) == t.log[..t.rHeadCount]
    ensures StartOf(t.pops, k + 1, t.rHeadCount) == t.pops[k].start + t.pops[k].num
  {
    DeliveredIsPrefix(t.n, t.log, t.pops, t.rHeadCount);
    assert EndsAtNext(t.pops, k, t.rHeadCount);
  }

  /** Until its commit, only its owner's writes change a push window. */
  lemma PushWindowPrivate<E>(s: Ring<E>, a: Action<E>, k: nat)
    requires Inv(s) && Enabled(s, a) && !Overruns(s, a) && s.pushDone <= k < |s.pushes|
    requires a.WriteCell? ==> a.k != k
    ensures Inv(Apply(s, a)) && k < |Apply(s, a).pushes| && Apply(s, a).pushes[k] == s.pushes[k]
    ensures Contents(Apply(s, a), s.pushes[k]) == Contents(s, s.pushes[k])
  {
    hide Index;
    StepInv(s, a);
    ApplyGrows(s, a);
    if a.WriteCell? {
      PushesApart(s, k, a.k);
      OtherWrite(s, s.pushes[k], s.pushes[a.k], a.i, a.v);
    } else {
      OnlyWritesWrite(s, a);
    }
  }

  lemma OnlyWritesWrite<E>(s: Ring<E>, a: Action<E>)
    requires Wellformed(s) && Enabled(s, a) && !a.WriteCell?
    ensures Apply(s, a).buff == s.buff && Apply(s, a).n == s.n
  {
  }

  lemma OtherWrite<E>(s: Ring<E>, p: Reservation, q: Reservation, i: nat, v: E)
    requires Wellformed(s) && p.oldIndex < s.n && p.span <= s.n && q.oldIndex < s.n && q.span <= s.n && i < q.span
    requires Apart(s.n, p, q)
    ensures Wellformed(WriteAt(s, q, i, v))
    ensures Contents(WriteAt(s, q, i, v), p) == Contents(s, p)
  {
  }
}
