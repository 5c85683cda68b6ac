/** The reserve/commit queue whose reservations are made under the two-phase lock, in place.

    Each method is what one holder of the reserve (or commit) lock does to the shared fields; the
    lock itself is in TwoPhaseLock.  The ghost field `ring` is the state of the ring machine that
    the fields represent, so everything proved about its runs holds of every history of calls.
    A reservation returns a window of one or two pieces of the buffer.  Its owner fills or reads
    the window after it has let go of the lock; meanwhile other calls may come in between.  Commits
    store their index without looking at the old one.  The lock is meant to let only the oldest
    reservation commit, but the cancel of this queue breaks that (EarlyCancel), so a commit may be
    called by any outstanding reservation here, and the contracts say what each does. */
module BlockingRing {
  import opened Common
  import opened RingIndex
  import opened RingQueue

  datatype Ret = Success | WouldBlock | Busy

  class ReserveCommitQueue<E(0)> {
    var numElm: nat
    var buff: array<E>
    var head: nat
    var reservedHead: nat
    var tail: nat
    var reservedTail: nat
    ghost var ring: Ring<E>

    ghost predicate Valid()
      reads this, buff
    {
      && Inv(ring)
      && numElm == ring.n == buff.Length && buff[..] == ring.buff
      && head == ring.head && reservedHead == ring.rHead && tail == ring.tail && reservedTail == ring.rTail
    }

    /** One cell more than the capacity asked for: a full ring must not look empty. */
    constructor (capacity: nat)
      ensures Valid() && fresh(buff) && numElm == capacity + 1
      ensures ring == Init(ring.buff) && Queue(ring) == []
    {
      numElm := capacity + 1;
      buff := new E[capacity + 1];
      head, reservedHead, tail, reservedTail := 0, 0, 0, 0;
      new;
      ring := Init(buff[..]);
      InitInv(buff[..]);
    }

    /** `eagerTail` and `eagerHead` were read before the lock was taken and may be overtaken: a push
        is refused if they leave no room, whatever the queue looks like by now.  Past that test it is
        told to wait for its ticket if it is not its turn, refused exactly when fewer than `num` cells
        are free, and otherwise granted the next `num` cells. */
    method ReservePushN(num: nat, myTurn: bool, eagerTail: nat, eagerHead: nat, ghost tid: nat)
        returns (ret: Ret, win: (Window, Window), newIndex: nat)
      requires Valid() && num >= 1
      modifies this`reservedTail, this`ring
      ensures Valid()
      ensures ret.Busy? <==> HaveEnoughRoom(numElm, eagerTail, eagerHead, num) && !myTurn
      ensures ret.WouldBlock? <==>
        || !HaveEnoughRoom(numElm, eagerTail, eagerHead, num)
        || (myTurn && old(ring).rTailCount + num > old(ring).headCount + numElm - 1)
      ensures !ret.Success? ==> unchanged(this)
      ensures ret.Success? ==>
        && num <= numElm && win == Windows(numElm, old(reservedTail), num)
        && newIndex == reservedTail == Index(numElm, old(ring).rTailCount + num)
        && ring == old(ring).(rTail := reservedTail, rTailCount := old(ring).rTailCount + num,
             pushSnaps := ring.pushSnaps,
             pushes := old(ring).pushes + [Reservation(tid, old(ring).rTailCount, num, num, old(reservedTail), newIndex)])
    {
      hide Inv, Index;
      win, newIndex := (Window(0, 0), Window(0, 0)), 0;
      InvLengths(ring);
      PushReserved(ring, tid, num);
      if !HaveEnoughRoom(numElm, eagerTail, eagerHead, num) {
        return WouldBlock, win, newIndex;
      }
      if !myTurn {
        return Busy, win, newIndex;
      }
      if !HaveEnoughRoom(numElm, reservedTail, head, num) {
        return WouldBlock, win, newIndex;
      }
      newIndex := reservedTail + num;
      if newIndex >= numElm {
        newIndex := newIndex - numElm;
        win := (Window(reservedTail, numElm - reservedTail), Window(0, newIndex));
      } else {
        win := (Window(reservedTail, num), Window(0, 0));
      }
      ring := SwapTail(ReadForPush(ring, tid), tid, num);
      reservedTail := newIndex;
      ret := Success;
    }

    /** Element `i` of an outstanding push reservation is filled through its window. */
    method Fill(win: (Window, Window), i: nat, v: E, ghost k: nat)
      requires Valid() && ring.pushDone <= k < |ring.pushes| && i < ring.pushes[k].num
      requires win == Windows(numElm, ring.pushes[k].oldIndex, ring.pushes[k].num)
      modifies this`ring, buff
      ensures Valid() && buff == old(buff)
      ensures ring == Apply(old(ring), WriteCell(k, i, v))
      ensures Contents(ring, ring.pushes[k]) == Contents(old(ring), ring.pushes[k])[i := v]
      ensures Queue(ring) == Queue(old(ring))
    {
      WriteCellInv(ring, k, i, v);
      RingRefinesFifo(ring, WriteCell(k, i, v));
      FillOwn(ring, k, i, v);
      CellInRange(numElm, ring.pushes[k], i);
      buff[CellAt(win, i)] := v;
      ring := Apply(ring, WriteCell(k, i, v));
    }

    /** Reservation `k` stores its index to Tail.  From the oldest one that publishes its window; from
        a younger one it leaves the queue unsound, with cells on offer that nobody has committed. */
    method CommitPush(newIndex: nat, ghost k: nat)
      requires Valid() && ring.pushDone <= k < |ring.pushes| && newIndex == ring.pushes[k].newIndex
      modifies this`tail, this`ring
      ensures Valid() <==> k == old(ring).pushDone
      ensures tail == newIndex
      ensures if k == old(ring).pushDone then
          && ring == Apply(old(ring), RingQueue.CommitPush(k))
          && Queue(ring) == Queue(old(ring)) + Contents(old(ring), old(ring).pushes[k])
        else ring == old(ring).(tail := newIndex)
    {
      hide Inv, Wellformed, Contents, Apply;
      InvLengths(ring);
      EarlyTail(ring, k);
      if k == ring.pushDone {
        PushCommitted(ring, k);
        ring := Apply(ring, RingQueue.CommitPush(k));
      } else {
        ring := ring.(tail := newIndex);
      }
      tail := newIndex;
    }

    /** Refused on the eager reads like a push; otherwise a pop sees the first `peek` elements of the
        queue and takes the first `num` of them, and is refused exactly when they are not there. */
    method ReservePeekPopN(peek: nat, num: nat, myTurn: bool, eagerHead: nat, eagerTail: nat, ghost tid: nat)
        returns (ret: Ret, win: (Window, Window), newIndex: nat)
      requires Valid() && 1 <= num <= peek
      modifies this`reservedHead, this`ring
      ensures Valid()
      ensures ret.Busy? <==> HaveEnoughData(numElm, eagerHead, eagerTail, peek) && !myTurn
      ensures ret.WouldBlock? <==>
        !HaveEnoughData(numElm, eagerHead, eagerTail, peek) || (myTurn && |Queue(old(ring))| < peek)
      ensures !ret.Success? ==> unchanged(this)
      ensures ret.Success? ==>
        && Queue(ring) == Queue(old(ring))[num..]
        && peek <= numElm && win == Windows(numElm, old(reservedHead), peek)
        && (forall i: nat :: i < peek ==> CellAt(win, i) < buff.Length && buff[CellAt(win, i)] == Queue(old(ring))[i])
        && newIndex == reservedHead == Index(numElm, old(ring).rHeadCount + num)
        && ring == old(ring).(rHead := reservedHead, rHeadCount := old(ring).rHeadCount + num,
             popSnaps := ring.popSnaps,
             pops := old(ring).pops + [Reservation(tid, old(ring).rHeadCount, num, peek, old(reservedHead), newIndex)])
    {
      hide Inv, Index;
      win, newIndex := (Window(0, 0), Window(0, 0)), 0;
      InvLengths(ring);
      PopReserved(ring, tid, peek, num);
      if !HaveEnoughData(numElm, eagerHead, eagerTail, peek) {
        return WouldBlock, win, newIndex;
      }
      if !myTurn {
        return Busy, win, newIndex;
      }
      if !HaveEnoughData(numElm, reservedHead, tail, peek) {
        return WouldBlock, win, newIndex;
      }
      newIndex := reservedHead + num;
      if newIndex >= numElm {
        newIndex := newIndex - numElm;
      }
      if reservedHead + peek >= numElm {
        win := (Window(reservedHead, numElm - reservedHead), Window(0, reservedHead + peek - numElm));
      } else {
        win := (Window(reservedHead, peek), Window(0, 0));
      }
      forall i: nat | i < peek
        ensures CellAt(win, i) < buff.Length && buff[CellAt(win, i)] == Queue(ring)[i]
      {
        PopWindowShowsQueue(ring, peek, i);
      }
      ring := SwapHead(ReadForPop(ring, tid), tid, peek, num);
      reservedHead := newIndex;
      ret := Success;
    }

    /** Reservation `k` stores its index to Head.  From the oldest one that frees its cells; from a
        younger one it also frees cells that older pops are still reading. */
    method CommitPeekPop(newIndex: nat, ghost k: nat)
      requires Valid() && ring.popDone <= k < |ring.pops| && newIndex == ring.pops[k].newIndex
      modifies this`head, this`ring
      ensures Valid() <==> k == old(ring).popDone
      ensures head == newIndex
      ensures if k == old(ring).popDone then
          && ring == Apply(old(ring), CommitPop(k)) && Queue(ring) == Queue(old(ring))
          && ring.headCount == old(ring).headCount + old(ring).pops[k].num
        else ring == old(ring).(head := newIndex)
    {
      hide Inv, Wellformed, Contents, Apply;
      InvLengths(ring);
      EarlyHead(ring, k);
      if k == ring.popDone {
        PopCommitted(ring, k);
        ring := Apply(ring, CommitPop(k));
      } else {
        ring := ring.(head := newIndex);
      }
      head := newIndex;
    }
  }

  lemma PushCommitted<E>(s: Ring<E>, k: nat)
    requires Inv(s) && k == s.pushDone < |s.pushes|
    ensures Wellformed(s) && Enabled(s, CommitPush(k))
    ensures var t := Apply(s, CommitPush(k));
      && Inv(t) && t.n == s.n && t.buff == s.buff && t.tail == s.pushes[k].newIndex
      && t.head == s.head && t.rHead == s.rHead && t.rTail == s.rTail
      && t.rHeadCount <= t.tailCount <= |t.log| && s.rHeadCount <= s.tailCount <= |s.log|
      && Queue(t) == Queue(s) + Contents(s, s.pushes[k])
  {
    hide Inv, Contents;
    InvLengths(s);
    CommitAppends(s, k);
    CommitPushOnlyOldest(s, k);
    InvLengths(Apply(s, CommitPush(k)));
  }

  lemma PopCommitted<E>(s: Ring<E>, k: nat)
    requires Inv(s) && k == s.popDone < |s.pops|
    ensures Wellformed(s) && Enabled(s, CommitPop(k))
    ensures var t := Apply(s, CommitPop(k));
      && Inv(t) && t.n == s.n && t.buff == s.buff && t.head == s.pops[k].newIndex
      && t.tail == s.tail && t.rHead == s.rHead && t.rTail == s.rTail
      && t.headCount == s.headCount + s.pops[k].num
      && t.rHeadCount <= t.tailCount <= |t.log| && s.rHeadCount <= s.tailCount <= |s.log|
      && Queue(t) == Queue(s)
  {
    hide Inv, Contents;
    InvLengths(s);
    CommitPopInv(s, k);
    CommitPopOnlyOldest(s, k);
    InvLengths(Apply(s, CommitPop(k)));
  }

  /** What Tail would offer to poppers if reservation `k` stored its index now: everything up to the
      end of that reservation, so uncommitted cells unless `k` is the oldest. */
  lemma EarlyTail<E>(s: Ring<E>, k: nat)
    requires Inv(s) && s.pushDone <= k < |s.pushes|
    ensures s.pushes[k].start == s.tailCount <==> k == s.pushDone
    ensures s.pushes[k].start >= s.tailCount
    ensures forall peek: nat :: peek >= 1 ==>
      (HaveEnoughData(s.n, s.rHead, s.pushes[k].newIndex, peek) <==>
       s.rHeadCount + peek <= s.pushes[k].start + s.pushes[k].num)
    ensures !Inv(s.(tail := s.pushes[k].newIndex))
  {
    hide Index, HaveEnoughData;
    PushWindowBounds(s, k);
    var end := s.pushes[k].start + s.pushes[k].num;
    SameIndexSameCounter(s.n, s.tailCount, end);
    forall peek: nat | peek >= 1
      ensures HaveEnoughData(s.n, s.rHead, s.pushes[k].newIndex, peek) <==> s.rHeadCount + peek <= end
    {
      DataExact(s.n, s.rHeadCount, end, peek);
    }
  }

  /** What Head would free for pushers if pop `k` stored its index now: everything up to the end of
      that reservation, so cells of older pops unless `k` is the oldest. */
  lemma EarlyHead<E>(s: Ring<E>, k: nat)
    requires Inv(s) && s.popDone <= k < |s.pops|
    ensures s.pops[k].start == s.headCount <==> k == s.popDone
    ensures s.pops[k].start >= s.headCount
    ensures forall num: nat ::
      HaveEnoughRoom(s.n, s.rTail, s.pops[k].newIndex, num) <==>
      s.rTailCount + num < s.pops[k].start + s.pops[k].num + s.n
    ensures !Inv(s.(head := s.pops[k].newIndex))
  {
    hide Index, HaveEnoughRoom;
    PopWindowBounds(s, k);
    var end := s.pops[k].start + s.pops[k].num;
    SameIndexSameCounter(s.n, s.headCount, end);
    forall num: nat
      ensures HaveEnoughRoom(s.n, s.rTail, s.pops[k].newIndex, num) <==> s.rTailCount + num < end + s.n
    {
      RoomExact(s.n, end, s.rTailCount, num);
    }
  }

  /** Both reads of a reservation, made while no other thread reserves. */
  ghost function ReadForPush<E>(s: Ring<E>, tid: nat): Ring<E>
    requires s.n > 0
  {
    s.(pushSnaps := s.pushSnaps[tid := Snapshot(Reading(s.rTail, s.rTailCount), Some(Reading(s.head, s.headCount)))])
  }

  ghost function ReadForPop<E>(s: Ring<E>, tid: nat): Ring<E>
    requires s.n > 0
  {
    s.(popSnaps := s.popSnaps[tid := Snapshot(Reading(s.rHead, s.rHeadCount), Some(Reading(s.tail, s.tailCount)))])
  }

  lemma ReadForPushInv<E>(s: Ring<E>, tid: nat)
    requires Inv(s)
    ensures Inv(ReadForPush(s, tid))
  {
    hide Index, Chain, Windows;
  }

  lemma ReadForPopInv<E>(s: Ring<E>, tid: nat)
    requires Inv(s)
    ensures Inv(ReadForPop(s, tid))
  {
    hide Index, Chain, Windows;
  }

  lemma PushReserved<E>(s: Ring<E>, tid: nat, num: nat)
    requires Inv(s) && num >= 1
    ensures HaveEnoughRoom(s.n, s.rTail, s.head, num) <==> s.rTailCount + num <= s.headCount + s.n - 1
    ensures Inv(ReadForPush(s, tid))
    ensures Inv(SwapTail(ReadForPush(s, tid), tid, num))
    ensures s.rTailCount + num <= s.headCount + s.n - 1 ==> num <= s.n
    ensures num <= s.n ==> Advance(s.n, s.rTail, num) == Index(s.n, s.rTailCount + num)
  {
    hide Index, HaveEnoughRoom, Advance, SwapTail, Chain, Inv;
    InvLengths(s);
    Parts(s);
    RoomExact(s.n, s.headCount, s.rTailCount, num);
    if num <= s.n {
      IndexOfAdvance(s.n, s.rTailCount, num);
    }
    ReadForPushInv(s, tid);
    SwapTailExact(ReadForPush(s, tid), tid, num);
  }

  lemma PopReserved<E>(s: Ring<E>, tid: nat, peek: nat, num: nat)
    requires Inv(s) && 1 <= num <= peek
    ensures HaveEnoughData(s.n, s.rHead, s.tail, peek) <==> |Queue(s)| >= peek
    ensures Inv(ReadForPop(s, tid))
    ensures Inv(SwapHead(ReadForPop(s, tid), tid, peek, num))
    ensures |Queue(s)| >= peek ==> peek <= s.n
    ensures num <= s.n ==> Advance(s.n, s.rHead, num) == Index(s.n, s.rHeadCount + num)
  {
    hide Index, HaveEnoughData, Advance, SwapHead, Chain, Inv;
    InvLengths(s);
    Parts(s);
    DataExact(s.n, s.rHeadCount, s.tailCount, peek);
    if num <= s.n {
      IndexOfAdvance(s.n, s.rHeadCount, num);
    }
    ReadForPopInv(s, tid);
    SwapHeadExact(ReadForPop(s, tid), tid, peek, num);
  }

  /** The window pieces of a granted pop show the front of the queue. */
  lemma PopWindowShowsQueue<E>(s: Ring<E>, peek: nat, i: nat)
    requires Inv(s) && i < peek <= |Queue(s)|
    ensures CellAt(Windows(s.n, s.rHead, peek), i) < s.n
    ensures s.buff[CellAt(Windows(s.n, s.rHead, peek), i)] == Queue(s)[i]
  {
    hide Index, Windows, CellAt;
    WindowsExact(s.n, s.rHeadCount, peek, i);
  }

  lemma OwnCellsDistinct<E>(s: Ring<E>, k: nat, i: nat, j: nat)
    requires Inv(s) && s.pushDone <= k < |s.pushes| && i < s.pushes[k].span && j < s.pushes[k].span && i != j
    ensures CellOf(s.n, s.pushes[k], i) != CellOf(s.n, s.pushes[k], j)
  {
    hide Index;
    PushWindowCell(s, k, i);
    PushWindowCell(s, k, j);
    DistinctCells(s, s.pushes[k].start + i, s.pushes[k].start + j);
  }

  lemma OwnWrite<E>(s: Ring<E>, r: Reservation, i: nat, v: E)
    requires Wellformed(s) && r.oldIndex < s.n && r.span <= s.n && i < r.span
    requires forall j: nat :: j < r.span && j != i ==> CellOf(s.n, r, j) != CellOf(s.n, r, i)
    ensures Wellformed(WriteAt(s, r, i, v))
    ensures Contents(WriteAt(s, r, i, v), r) == Contents(s, r)[i := v]
  {
    var c, c' := Contents(s, r), Contents(WriteAt(s, r, i, v), r);
    assert forall j: nat :: j < r.span ==> c'[j] == c[i := v][j];
  }

  lemma FillOwn<E>(s: Ring<E>, k: nat, i: nat, v: E)
    requires Inv(s) && s.pushDone <= k < |s.pushes| && i < s.pushes[k].num
    ensures Inv(Apply(s, WriteCell(k, i, v)))
    ensures Contents(Apply(s, WriteCell(k, i, v)), s.pushes[k]) == Contents(s, s.pushes[k])[i := v]
  {
    hide Inv, CellOf, Contents;
    InvLengths(s);
    WriteCellInv(s, k, i, v);
    forall j: nat | j < s.pushes[k].span && j != i
      ensures CellOf(s.n, s.pushes[k], j) != CellOf(s.n, s.pushes[k], i)
    {
      OwnCellsDistinct(s, k, j, i);
    }
    OwnWrite(s, s.pushes[k], i, v);
  }
}
