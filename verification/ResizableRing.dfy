/** The resizing operations of the resizable queue, in place on its buffer.

    The ghost field `ring` is the machine state that the fields represent; each method performs one
    step of that machine, so that everything proved about its steps and runs holds here.  Moving
    blocks of cells, storing the indices and asking the buffer manager for a new size are written
    out as the source does them.  What the source finds out at run time comes in as parameters:
    whether the lock of the poppers could be taken, how the dice fell, and the page count that the
    buffer manager estimates in floating point. */
module ResizableRing {
  import opened BufferManager
  import opened Common
  import opened ResizableQueue

  /** The machine steps that the methods perform, by their effect on the fields. */
  lemma CompactStep<E>(s: Queue<E>, m: nat)
    requires Inv(s) && Wellformed(s) && s.pusher.Compacting? && s.tail == s.rTail && PopLockFree(s)
    requires Sized(s.cfg, CalcGrown(s.cfg, s.n, s.pusher.seen.num + CompactMove(s)), m)
    ensures Enabled(s, CompactQueue(m)) && s.n <= m <= |s.buff|
    ensures Apply(s, CompactQueue(m)) == Compact(s, m).(pusher := Storing(s.pusher.seen, m))
    ensures Wellformed(Apply(s, CompactQueue(m))) && Compact(s, m).n == m
    ensures Compact(s, m).numElm == s.numElm && Compact(s, m).cfg == s.cfg
  {
    hide Inv, Wellformed, CalcGrown, Compact, Counters, Chain, Logged, PopperOk;
    Facts(s);
    SizesOk(s);
    GrantGrows(s.cfg, s.n, s.pusher.seen.num + CompactMove(s), m);
    CompactWellformed(s, m);
    CompactFrame(s, m);
  }

  lemma CompactWellformed<E>(s: Queue<E>, m: nat)
    requires Wellformed(s) && s.pusher.Compacting? && s.pusher.seen.numElm == s.numElm && s.n <= m <= |s.buff|
    ensures Wellformed(Compact(s, m).(pusher := Storing(s.pusher.seen, m)))
  {
    CompactFrame(s, m);
    hide WindowInside, Move;
  }

  lemma SizesOk<E>(s: Queue<E>)
    requires Wellformed(s)
    ensures ConfigOk(s.cfg) && s.cfg.sizeMin <= s.n <= s.cfg.sizeMax == |s.buff| && s.head < s.n && s.rHead < s.n
    ensures !s.pusher.Storing? ==> s.numElm == s.n
  {
  }

  lemma ShrinkStep<E>(s: Queue<E>, m: nat)
    requires Inv(s) && Wellformed(s) && s.n >= 2 && s.popper.Reserved? && s.pusher.Idle? && RequireShrink(s, s.head)
    requires Sized(s.cfg, ShrinkTo(s.cfg, s.n, s.rTail), m)
    ensures Enabled(s, ShrinkQueue(m, s.head)) && Inv(Apply(s, ShrinkQueue(m, s.head)))
    ensures Wellformed(Apply(s, ShrinkQueue(m, s.head)))
    ensures Apply(s, ShrinkQueue(m, s.head)) == s.(n := m, numElm := m, popper := Outside)
  {
    hide Inv, Wellformed, RequireShrink, ShrinkTo;
    WorthwhileResizable(s);
    StepInv(s, ShrinkQueue(m, s.head));
    FrontBound(Apply(s, ShrinkQueue(m, s.head)));
  }

  lemma WorthwhileResizable<E>(s: Queue<E>)
    requires s.n >= 2 && RequireShrink(s, s.head)
    ensures Resizable(s)
  {
  }

  lemma RefusedStep<E>(s: Queue<E>)
    requires Wellformed(s) && s.pusher.Compacting?
    ensures Wellformed(s.(pusher := Rechecking(s.pusher.seen)))
  {
  }

  lemma LeaveStep<E>(s: Queue<E>)
    requires Inv(s) && Wellformed(s) && s.popper.Reserved?
    ensures Enabled(s, LeavePop) && Apply(s, LeavePop) == s.(popper := Outside) && Inv(Apply(s, LeavePop))
  {
    hide Inv, Wellformed;
    StepInv(s, LeavePop);
  }

  /** A pusher that finds the queue wrapped around, up to its try for the pop lock. */
  lemma WrappedSteps<E>(s: Queue<E>)
    requires Inv(s) && Wellformed(s) && s.pusher.Checking? && !Roomy(s.pusher.seen) && !Resizable(s)
    ensures Enabled(s, SeeWrapped) && Wellformed(Apply(s, SeeWrapped))
    ensures var w := Apply(s, SeeWrapped);
      && Enabled(w, SkipGrow) && Wellformed(Apply(w, SkipGrow))
      && Apply(w, SkipGrow) == s.(pusher := Rechecking(s.pusher.seen))
      && (s.tail == s.rTail ==>
            && Enabled(w, GoCompact) && Inv(Apply(w, GoCompact)) && Wellformed(Apply(w, GoCompact))
            && Apply(w, GoCompact) == s.(pusher := Compacting(s.pusher.seen)))
  {
    hide Inv, Roomy, WindowInside;
    StepInv(s, SeeWrapped);
    if s.tail == s.rTail {
      StepInv(Apply(s, SeeWrapped), GoCompact);
    }
  }

  class ResizableReserveCommitQueue<E(0)> {
    const cfg: Config
    const buffMgr: ResizableBufferManager
    const buff: array<E>
    var numElm: nat
    var head: nat
    var reservedHead: nat
    var tail: nat
    var reservedTail: nat
    ghost var ring: Queue<E>

    ghost predicate Matches()
      reads this, buff, buffMgr
    {
      && Wellformed(ring) && buffMgr.Valid() && cfg == ring.cfg
      && cfg.elementsPerPage == PAGE_SIZE / buffMgr.elmSize
      && buffMgr.minNum == cfg.sizeMin && buffMgr.maxNum == cfg.sizeMax && buffMgr.curNum == ring.n
      && numElm == ring.numElm && Shows(ring)
    }

    /** The cells and the four indices are those of `q`. */
    ghost predicate Shows(q: Queue<E>)
      reads this, buff
    {
      buff[..] == q.buff && head == q.head && reservedHead == q.rHead && tail == q.tail && reservedTail == q.rTail
    }

    constructor (elmSize: nat, minNum: nat, maxNum: nat, growth: real, shrinkStart: real, shrink: real)
      requires 0 < elmSize <= PAGE_SIZE && minNum >= 2 && growth >= 0.0 && shrink >= 0.0
      ensures Matches() && Inv(ring) && fresh(buff) && fresh(buffMgr)
      ensures ring == Init(cfg, ring.buff) && Unread(ring) == [] && minNum <= numElm
    {
      var mgr := new ResizableBufferManager(elmSize, minNum, maxNum);
      var cells := new E[mgr.maxNum];
      buffMgr, buff := mgr, cells;
      cfg := Config(minNum, mgr.minNum, mgr.maxNum, PAGE_SIZE / elmSize, growth, shrinkStart, shrink);
      numElm := mgr.curNum;
      head, reservedHead, tail, reservedTail := 0, 0, 0, 0;
      new;
      ring := Init(cfg, buff[..]);
      InitInv(cfg, buff[..]);
    }

    /** Copy a block within the buffer; correct for overlapping blocks in either direction. */
    method MoveCells(dst: nat, src: nat, num: nat)
      requires dst + num <= buff.Length && src + num <= buff.Length
      modifies buff
      ensures buff[..] == Move(old(buff[..]), dst, src, num)
    {
      ghost var was := buff[..];
      if dst <= src {
        for i := 0 to num
          invariant forall j :: dst <= j < dst + i ==> buff[j] == was[j - dst + src]
          invariant forall j :: 0 <= j < buff.Length && !(dst <= j < dst + i) ==> buff[j] == was[j]
        {
          buff[dst + i] := buff[src + i];
        }
      } else {
        for i := num downto 0
          invariant forall j :: dst + i <= j < dst + num ==> buff[j] == was[j - dst + src]
          invariant forall j :: 0 <= j < buff.Length && !(dst + i <= j < dst + num) ==> buff[j] == was[j]
        {
          buff[dst + i] := buff[src + i];
        }
      }
    }

    /** Case 1: append the front block behind the old end. */
    method AppendFrontBlock(m: nat)
      requires Wellformed(ring) && Shows(ring) && numElm == ring.n
      requires numElm + reservedTail <= buff.Length && reservedTail <= numElm
      modifies this`tail, this`reservedTail, buff
      ensures Shows(AppendFront(ring, m))
    {
      hide Wellformed, Move;
      SizesOk(ring);
      MoveCells(numElm, 0, reservedTail);
      tail := numElm + reservedTail;
      reservedTail := numElm + reservedTail;
    }

    /** Case 2, and case 3 when the buffer did not grow enough: slide the head block to the end. */
    method ShiftHeadBlock(m: nat)
      requires Wellformed(ring) && Shows(ring) && numElm == ring.n <= m <= buff.Length
      modifies this`head, this`reservedHead, buff
      ensures Shows(ShiftHead(ring, m))
    {
      hide Wellformed, Move;
      SizesOk(ring);
      var newHead := m - numElm + head;
      MoveCells(newHead, head, numElm - head);
      assert buff[..] == ShiftHead(ring, m).buff;
      head := newHead;
      reservedHead := newHead;
    }

    /** Ask for room for `num` more elements, given the page count of the buffer manager's division. */
    method Resize(request: nat, estimate: nat) returns (m: nat)
      requires buffMgr.Valid() && request > 0 && buffMgr.minNum * buffMgr.elmSize <= estimate * PAGE_SIZE
      modifies buffMgr
      ensures buffMgr.Valid() && buffMgr.curNum == m && Granted(buffMgr.minNum, buffMgr.maxNum, request, m)
      ensures var num := Min(Max(request, buffMgr.minNum), buffMgr.maxNum);
        buffMgr.IsCeiling(num, estimate) ==> m <= num + PAGE_SIZE / buffMgr.elmSize
    {
      m := buffMgr.Resize(request, estimate);
    }

    /** The three cases of compaction, and the plain resize when poppers have unwrapped the queue
        before the pop lock was taken.  The caller has yet to store the size that comes back. */
    method CompactQueue(num: nat, popLock: bool, estimate: nat) returns (m: nat)
      requires Matches() && Inv(ring) && ring.pusher.Compacting? && num == ring.pusher.seen.num
      requires popLock == PopLockFree(ring)
      requires buffMgr.minNum * buffMgr.elmSize <= estimate * PAGE_SIZE
      modifies this, buff, buffMgr
      ensures Matches() && numElm == old(numElm)
      ensures old(tail == reservedTail) && popLock ==>
        Enabled(old(ring), ResizableQueue.CompactQueue(m)) && ring == Apply(old(ring), ResizableQueue.CompactQueue(m))
      ensures !(old(tail == reservedTail) && popLock) ==>
        m == numElm && ring == old(ring).(pusher := Rechecking(old(ring).pusher.seen))
    {
      hide Inv, Wellformed, CalcGrown, Apply, Enabled, Move, ShiftHead, AppendFront;
      SizesOk(ring);
      ghost var s := ring;
      if !(tail == reservedTail && popLock) {
        RefusedStep(ring);
        ring := ring.(pusher := Rechecking(ring.pusher.seen));
        return numElm;
      }
      CalcGrownEnough(cfg, numElm, num + CompactMove(ring));
      if head > reservedTail {
        var moveNum := if reservedTail <= numElm - head then reservedTail else numElm - head;
        m := Resize(CalcGrown(cfg, numElm, num + moveNum), estimate);
        CompactStep(s, m);
        if m >= numElm + moveNum && reservedTail <= numElm - head {
          AppendFrontBlock(m);
        } else if m > numElm {
          ShiftHeadBlock(m);
        }
      } else {
        m := Resize(CalcGrown(cfg, numElm, num), estimate);
        CompactStep(s, m);
      }
      assert Shows(Compact(s, m));
      ring := Compact(s, m).(pusher := Storing(s.pusher.seen, m));
    }

    /** Resize in place when the queue is not wrapped around, compact it otherwise, but only while no
        push is outstanding and if the dice say so.  After a compaction the pop lock has been given
        back and NumElm is still to be stored: StoreSize is the rest of the call, and pops may come
        in between. */
    method GrowQueue(num: nat, dice: bool, popLock: bool, estimate: nat) returns (m: nat)
      requires Matches() && Inv(ring) && ring.pusher.Checking? && num == ring.pusher.seen.num && !Roomy(ring.pusher.seen)
      requires popLock == PopLockFree(ring)
      requires buffMgr.minNum * buffMgr.elmSize <= estimate * PAGE_SIZE
      modifies this, buff, buffMgr
      ensures Matches()
      ensures ring.pusher.Storing? || (ring.pusher.Rechecking? && m == numElm)
      ensures old(head <= reservedTail) ==>
        Enabled(old(ring), ResizableQueue.GrowQueue(m)) && ring == Apply(old(ring), ResizableQueue.GrowQueue(m))
      ensures old(head > reservedTail && tail == reservedTail) && dice && popLock ==>
        var s := Apply(Apply(old(ring), SeeWrapped), GoCompact);
        Enabled(s, ResizableQueue.CompactQueue(m)) && ring == Apply(s, ResizableQueue.CompactQueue(m))
      ensures old(head > reservedTail) && !(old(tail == reservedTail) && dice && popLock) ==>
        ring == Apply(Apply(old(ring), SeeWrapped), SkipGrow)
    {
      hide WindowInside, Inv, Counters, Chain, PusherOk, PopperOk, Roomy;
      ghost var s := ring;
      Facts(s);
      if head <= reservedTail {
        CalcGrownEnough(cfg, numElm, num);
        m := Resize(CalcGrown(cfg, numElm, num), estimate);
        GrantGrows(s.cfg, s.n, num, m);
        numElm := m;
        ring := Apply(s, ResizableQueue.GrowQueue(m));
      } else if tail == reservedTail && dice {
        hide Apply, Enabled, Wellformed;
        WrappedSteps(s);
        ring := Apply(Apply(s, SeeWrapped), GoCompact);
        m := CompactQueue(num, popLock, estimate);
      } else {
        hide Apply, Enabled, Wellformed;
        WrappedSteps(s);
        ring := Apply(Apply(s, SeeWrapped), SkipGrow);
        m := numElm;
      }
    }

    /** The store to NumElm that ends growQueue. */
    method StoreSize(size: nat)
      requires Matches() && ring.pusher.Storing? && size == ring.pusher.size
      modifies this`numElm, this`ring
      ensures Matches() && numElm == size
      ensures ring == Apply(old(ring), ResizableQueue.StoreSize)
    {
      hide WindowInside;
      numElm := size;
      ring := Apply(ring, ResizableQueue.StoreSize);
    }

    /** Called by a popper that still holds the reserve lock, with the push lock taken.  A required
        shrink makes the queue smaller if the buffer manager's page count is exact, unless it asks for
        less than the buffer manager's minimum. */
    method ShrinkQueueIfNeeded(estimate: nat) returns (m: nat)
      requires Matches() && Inv(ring) && ring.popper.Reserved? && ring.pusher.Idle?
      requires buffMgr.minNum * buffMgr.elmSize <= estimate * PAGE_SIZE
      modifies this, buffMgr
      ensures Matches() && m == numElm && Inv(ring)
      ensures if RequireShrink(old(ring), old(head)) then
          Enabled(old(ring), ShrinkQueue(m, old(head))) && ring == Apply(old(ring), ShrinkQueue(m, old(head)))
        else ring == Apply(old(ring), LeavePop)
      ensures old(numElm) >= 2 && old(reservedTail < numElm)
      ensures var target := ShrinkTo(cfg, old(numElm), old(reservedTail));
        RequireShrink(old(ring), old(head)) && buffMgr.IsCeiling(Min(Max(target, buffMgr.minNum), buffMgr.maxNum), estimate) ==>
          && numElm <= Max(target, buffMgr.minNum) + cfg.elementsPerPage
          && (target >= buffMgr.minNum ==> numElm < old(numElm))
    {
      hide Inv, Apply, Enabled, Counters, Chain, Logged, PusherOk, PopperOk, ShrinkWorthwhile, ShrinkTo, WindowInside;
      ghost var s := ring;
      Facts(s);
      ShrinkWhen(s);
      if !ShrinkWorthwhile(cfg, numElm, head, reservedTail) {
        LeaveStep(s);
        ring := s.(popper := Outside);
        return numElm;
      }
      m := Resize(ShrinkTo(cfg, numElm, reservedTail), estimate);
      ShrinkStep(s, m);
      numElm := m;
      ring := s.(n := m, numElm := m, popper := Outside);
    }
  }
}
