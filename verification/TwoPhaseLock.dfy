/** The two-phase queue lock of the resizable reserve/commit queue. */
module TwoPhaseLock {
  // A caller swaps its ReservationInfo record into the lock word, enters the reserve section when
  // its predecessor has left it, and enters the commit section when its predecessor hands over.
  // Records live on the callers' stacks, so a record must not be touched after its owner's
  // releaseCommitLock returned.

  import opened Common

  datatype Flag = Wait | Go | Consumed

  datatype Record = Record(reserveLock: Flag, commitLock: Flag, next: Option<nat>)

  datatype Phase =
    | Idle
    | Ready                  // own record initialised
    | Linking(pred: nat)      // swapped in behind `pred`
    | Awaiting(pred: nat)     // spinning on pred's ReserveLock
    | Taking(pred: nat)       // saw Go, about to store Consumed
    | First                  // swapped in on a free lock, about to set its own CommitLock
    | Reserving              // in the reserve section
    | Reserved               // left it, spinning on its own CommitLock
    | Committing             // in the commit section
    | Leaving                // saw no successor, about to swap the lock word back to null
    | AwaitingNext           // there is a successor that has not linked itself yet
    | Handing(next: nat)     // about to set the successor's CommitLock
    | Draining               // spinning until the successor consumed its ReserveLock

  /** The machine takes one shared access per step, for any number of threads; `order` (all swaps into
      the lock word), `place` (a thread's position in it), `front`, `entered` and the two logs are
      history that no step looks at. */
  datatype Lock = Lock(
    tail: Option<nat>, records: seq<Record>, phases: seq<Phase>,
    order: seq<nat>, place: seq<nat>, front: nat, entered: nat, reserveLog: seq<nat>, commitLog: seq<nat>)

  datatype Action =
    | Begin(tid: nat)        // start a call: initialise the record
    | SwapIn(tid: nat)       // acquireReserveLock
    | TrySwapIn(tid: nat)    // tryAcquireReserveLock
    | Step(tid: nat)         // the next shared access of any later phase

  predicate PointsBelow(p: Phase, n: nat) {
    match p
    case Linking(o) => o < n
    case Awaiting(o) => o < n
    case Taking(o) => o < n
    case Handing(o) => o < n
    case _ => true
  }

  predicate Wellformed(s: Lock) {
    && |s.records| == |s.phases| == |s.place|
    && (forall t :: 0 <= t < |s.phases| ==> PointsBelow(s.phases[t], |s.phases|))
  }

  predicate Enabled(s: Lock, a: Action)
    requires Wellformed(s)
  {
    && a.tid < |s.phases|
    && match a
       case Begin(t) => s.phases[t].Idle?
       case SwapIn(t) => s.phases[t].Ready?
       case TrySwapIn(t) => s.phases[t].Ready?
       case Step(t) => !s.phases[t].Idle? && !s.phases[t].Ready?
  }

  function Goto(s: Lock, t: nat, p: Phase): Lock
    requires t < |s.phases|
  {
    s.(phases := s.phases[t := p])
  }

  function StepOf(s: Lock, t: nat): Lock
    requires Wellformed(s) && t < |s.phases|
  {
    var me := s.records[t];
    match s.phases[t]
    case Linking(pred) =>
      Goto(s, t, Awaiting(pred)).(records := s.records[pred := s.records[pred].(next := Some(t))])
    case Awaiting(pred) =>
      if s.records[pred].reserveLock.Go? then Goto(s, t, Taking(pred)) else s
    case Taking(pred) =>
      Goto(s, t, Reserving).(records := s.records[pred := s.records[pred].(reserveLock := Consumed)],
        entered := s.entered + 1, reserveLog := s.reserveLog + [t])
    case First =>
      Goto(s, t, Reserving).(records := s.records[t := me.(commitLock := Go)],
        entered := s.entered + 1, reserveLog := s.reserveLog + [t])
    case Reserving =>
      Goto(s, t, Reserved).(records := s.records[t := me.(reserveLock := Go)])
    case Reserved =>
      if me.commitLock.Go? then Goto(s, t, Committing).(commitLog := s.commitLog + [t]) else s
    case Committing =>
      if me.next.None? then Goto(s, t, Leaving)
      else if me.next.value < |s.phases| then Goto(s, t, Handing(me.next.value)) else s
    case Leaving =>
      if s.tail == Some(t) then Goto(s, t, Idle).(tail := None, front := s.front + 1) else Goto(s, t, AwaitingNext)
    case AwaitingNext =>
      if me.next.Some? && me.next.value < |s.phases| then Goto(s, t, Handing(me.next.value)) else s
    case Handing(next) =>
      Goto(s, t, Draining).(records := s.records[next := s.records[next].(commitLock := Go)], front := s.front + 1)
    case Draining =>
      if me.reserveLock.Consumed? then Goto(s, t, Idle) else s
    case Idle => s
    case Ready => s
  }

  function Apply(s: Lock, a: Action): Lock
    requires Wellformed(s) && Enabled(s, a)
  {
    match a
    case Begin(t) => Goto(s, t, Ready).(records := s.records[t := Record(Wait, Wait, None)])
    case SwapIn(t) =>
      Goto(s, t, if s.tail.None? then First else if s.tail.value < |s.phases| then Linking(s.tail.value) else First)
        .(tail := Some(t), order := s.order + [t], place := s.place[t := |s.order|])
    case TrySwapIn(t) =>
      if s.tail.None? then
        Goto(s, t, First).(tail := Some(t), order := s.order + [t], place := s.place[t := |s.order|])
      else Goto(s, t, Idle)
    case Step(t) => StepOf(s, t)
  }

  function Init(threads: nat): Lock {
    Lock(None, seq(threads, _ => Record(Wait, Wait, None)), seq(threads, _ => Idle), [], seq(threads, _ => 0), 0, 0, [], [])
  }

  // ---------------------------------------------------------------------------------------------
  // The invariant
  // ---------------------------------------------------------------------------------------------

  predicate Waiting(p: Phase) { p.Linking? || p.Awaiting? || p.Taking? }

  predicate Released(p: Phase) { p.Reserved? || InCommit(p) }

  predicate InCommit(p: Phase) { p.Committing? || p.Leaving? || p.AwaitingNext? || p.Handing? }

  predicate Entered(p: Phase) { p.Reserving? || Released(p) }

  predicate Queued(p: Phase) { Waiting(p) || p.First? || Entered(p) }

  /** `order[front..]` are the threads between their swap and their hand-over, oldest first; those
      below `entered` have entered their reserve section. */
  ghost predicate QueueOk(s: Lock)
    requires Wellformed(s)
  {
    && s.front <= s.entered <= |s.order|
    && (forall i :: s.front <= i < |s.order| ==>
          && s.order[i] < |s.phases| && s.place[s.order[i]] == i && Queued(s.phases[s.order[i]])
          && (i < s.entered <==> Entered(s.phases[s.order[i]])))
    && (forall t :: 0 <= t < |s.phases| && Queued(s.phases[t]) ==>
          s.front <= s.place[t] < |s.order| && s.order[s.place[t]] == t)
    && s.tail == (if s.front == |s.order| then None else Some(s.order[|s.order| - 1]))
  }

  ghost predicate WaitsFor(p: Phase, pred: nat) {
    match p
    case Linking(o) => o == pred
    case Awaiting(o) => o == pred
    case Taking(o) => o == pred
    case First => false
    case _ => true
  }

  function PhaseAt(s: Lock, i: nat): Phase
    requires i < |s.order| && s.order[i] < |s.phases|
  {
    s.phases[s.order[i]]
  }

  function RecordAt(s: Lock, i: nat): Record
    requires i < |s.order| && s.order[i] < |s.records|
  {
    s.records[s.order[i]]
  }

  /** The thread at the front: it holds, or is just setting, its commit lock; if it still waits, then
      for a thread that already handed over and is draining. */
  ghost predicate FrontOk(s: Lock)
    requires Wellformed(s) && QueueOk(s)
  {
    s.front < |s.order| ==>
      var p, r := PhaseAt(s, s.front), RecordAt(s, s.front);
      && (r.commitLock.Go? || (p.First? && r.commitLock.Wait?))
      && match p
         case Linking(_) => false
         case Awaiting(d) => s.phases[d].Draining? && s.records[d].reserveLock.Go?
         case Taking(d) => s.phases[d].Draining? && s.records[d].reserveLock.Go?
         case _ => true
  }

  /** A queued thread behind another one waits for that one and has no commit lock. */
  ghost predicate FollowerOk(s: Lock, i: nat)
    requires Wellformed(s) && QueueOk(s) && s.front < i < |s.order|
  {
    var p := PhaseAt(s, i);
    && WaitsFor(p, s.order[i - 1]) && RecordAt(s, i).commitLock.Wait? && !InCommit(p)
    && (p.Taking? || Entered(p) ==> Released(PhaseAt(s, i - 1)))
  }

  /** ReserveLock of the queued thread at position `i`: consumed by a successor that has entered,
      open once the reserve section was left. */
  ghost predicate FlagOk(s: Lock, i: nat)
    requires Wellformed(s) && QueueOk(s) && s.front <= i < |s.order|
  {
    RecordAt(s, i).reserveLock ==
      if i + 1 < |s.order| && Entered(PhaseAt(s, i + 1)) then Consumed
      else if Released(PhaseAt(s, i)) then Go else Wait
  }

  /** Next of the queued thread at position `i`: its successor, once that has linked itself. */
  ghost predicate NextOk(s: Lock, i: nat)
    requires Wellformed(s) && QueueOk(s) && s.front <= i < |s.order|
  {
    var p, r := PhaseAt(s, i), RecordAt(s, i);
    && r.next == (if i + 1 < |s.order| && !PhaseAt(s, i + 1).Linking? then Some(s.order[i + 1]) else None)
    && (p.AwaitingNext? ==> i + 1 < |s.order|)
    && (p.Handing? ==> r.next == Some(p.next))
  }

  /** A thread whose record the front of the queue still has to consume, or that is free to go. */
  ghost predicate DrainingOk(s: Lock, t: nat)
    requires Wellformed(s) && t < |s.phases| && QueueOk(s)
  {
    s.phases[t].Draining? ==>
      || s.records[t].reserveLock.Consumed?
      || (s.records[t].reserveLock.Go? && s.front < |s.order| &&
          (PhaseAt(s, s.front) == Awaiting(t) || PhaseAt(s, s.front) == Taking(t)))
  }

  ghost predicate LogsOk(s: Lock)
    requires Wellformed(s) && QueueOk(s)
  {
    && s.reserveLog == s.order[..s.entered]
    && s.commitLog == s.order[..if s.front < |s.order| && InCommit(PhaseAt(s, s.front)) then s.front + 1 else s.front]
  }

  ghost predicate ReadyOk(s: Lock)
    requires Wellformed(s)
  {
    forall t :: 0 <= t < |s.phases| && s.phases[t].Ready? ==> s.records[t] == Record(Wait, Wait, None)
  }

  ghost predicate AllFollowers(s: Lock)
    requires Wellformed(s) && QueueOk(s)
  {
    forall i :: s.front < i < |s.order| ==> FollowerOk(s, i)
  }

  ghost predicate AllRecords(s: Lock)
    requires Wellformed(s) && QueueOk(s)
  {
    forall i :: s.front <= i < |s.order| ==> FlagOk(s, i) && NextOk(s, i)
  }

  ghost predicate AllDraining(s: Lock)
    requires Wellformed(s) && QueueOk(s)
  {
    forall t :: 0 <= t < |s.phases| ==> DrainingOk(s, t)
  }

  ghost predicate Inv(s: Lock) {
    && Wellformed(s) && QueueOk(s) && FrontOk(s) && LogsOk(s) && ReadyOk(s)
    && AllFollowers(s) && AllRecords(s) && AllDraining(s)
  }

  lemma InitInv(threads: nat)
    ensures Inv(Init(threads))
  {
  }

  // ---------------------------------------------------------------------------------------------
  // Every step keeps the invariant
  // ---------------------------------------------------------------------------------------------

  /** What the invariant says of the neighbourhood of a queued thread. */
  lemma Around(s: Lock, i: nat)
    requires Inv(s) && s.front <= i < |s.order|
    ensures FlagOk(s, i) && NextOk(s, i)
    ensures i > s.front ==> FollowerOk(s, i) && FlagOk(s, i - 1) && NextOk(s, i - 1)
    ensures i + 1 < |s.order| ==> FollowerOk(s, i + 1)
    ensures InCommit(PhaseAt(s, i)) || PhaseAt(s, i).First? ==> i == s.front
  {
  }

  ghost predicate SameQueue(s: Lock, s': Lock) {
    s'.order == s.order && s'.place == s.place && s'.tail == s.tail && s'.front == s.front
  }

  /** A phase change inside (or outside) the queue, possibly entering the reserve section. */
  lemma QueueMove(s: Lock, s': Lock, t: nat, p: Phase)
    requires Wellformed(s) && QueueOk(s) && t < |s.phases|
    requires SameQueue(s, s') && |s'.records| == |s.records|
    requires s'.phases == s.phases[t := p] && PointsBelow(p, |s.phases|) && Queued(p) == Queued(s.phases[t])
    requires
      || (s'.entered == s.entered && Entered(p) == Entered(s.phases[t]))
      || (s'.entered == s.entered + 1 && !Entered(s.phases[t]) && Entered(p) && s.place[t] == s.entered)
    ensures Wellformed(s') && QueueOk(s')
  {
    hide PointsBelow;
  }

  lemma QueueJoin(s: Lock, s': Lock, t: nat, p: Phase)
    requires Wellformed(s) && QueueOk(s) && t < |s.phases| && !Queued(s.phases[t])
    requires s'.order == s.order + [t] && s'.place == s.place[t := |s.order|] && s'.front == s.front
    requires s'.entered == s.entered && s'.tail == Some(t) && |s'.records| == |s.records|
    requires s'.phases == s.phases[t := p] && PointsBelow(p, |s.phases|) && Queued(p) && !Entered(p)
    ensures Wellformed(s') && QueueOk(s')
  {
    hide PointsBelow;
  }

  lemma QueueLeave(s: Lock, s': Lock, t: nat, p: Phase)
    requires Wellformed(s) && QueueOk(s) && s.front < s.entered && s.order[s.front] == t
    requires s'.order == s.order && s'.place == s.place && s'.front == s.front + 1
    requires s'.entered == s.entered && |s'.records| == |s.records|
    requires s'.phases == s.phases[t := p] && PointsBelow(p, |s.phases|) && !Queued(p)
    requires s'.tail == (if s.front + 1 == |s.order| then None else s.tail)
    ensures Wellformed(s') && QueueOk(s')
  {
    hide PointsBelow;
  }

  function PredOf(p: Phase): nat
    requires Waiting(p)
  {
    match p
    case Linking(o) => o
    case Awaiting(o) => o
    case Taking(o) => o
  }

  /** Where the invariant places a thread, read off its phase. */
  lemma Whereabouts(s: Lock, t: nat)
    requires Inv(s) && t < |s.phases| && Queued(s.phases[t])
    ensures s.front <= s.place[t] < |s.order| && s.order[s.place[t]] == t
    ensures s.place[t] < s.entered <==> Entered(s.phases[t])
    ensures s.phases[t].Taking? || s.phases[t].First? ==> s.place[t] == s.entered
    ensures s.phases[t].First? || InCommit(s.phases[t]) ==> s.place[t] == s.front
    ensures s.phases[t].Reserved? && s.records[t].commitLock.Go? ==> s.place[t] == s.front
    ensures s.place[t] == s.front ==> (s.tail == Some(t) <==> s.front + 1 == |s.order|)
    ensures s.records[t].next.Some? ==>
      s.place[t] + 1 < |s.order| && s.records[t].next.value == s.order[s.place[t] + 1] < |s.phases|
    ensures s.phases[t].Handing? ==> s.records[t].next == Some(s.phases[t].next)
    ensures s.phases[t].AwaitingNext? ==> s.place[t] + 1 < |s.order|
    ensures s.place[t] < |s.order| && s.front <= s.place[t] && FlagOk(s, s.place[t]) && NextOk(s, s.place[t])
    ensures Waiting(s.phases[t]) ==>
      if s.place[t] > s.front then PredOf(s.phases[t]) == s.order[s.place[t] - 1]
      else !s.phases[t].Linking? && s.phases[PredOf(s.phases[t])].Draining? && s.records[PredOf(s.phases[t])].reserveLock.Go?
  {
    Around(s, s.place[t]);
  }

  lemma Bounds(s: Lock, t: nat)
    requires Inv(s) && t < |s.phases|
    ensures Wellformed(s) && QueueOk(s) && |s.records| == |s.phases| == |s.place|
    ensures s.front <= s.entered <= |s.order| && PointsBelow(s.phases[t], |s.phases|)
    ensures s.tail.Some? <==> s.front < |s.order|
    ensures s.tail.Some? ==> s.tail.value == s.order[|s.order| - 1] < |s.phases|
  {
  }

  lemma FrontAndSelf(s: Lock, t: nat)
    requires Inv(s) && t < |s.phases|
    ensures Wellformed(s) && QueueOk(s) && FrontOk(s) && DrainingOk(s, t)
  {
  }

  /** What a step does to the queue itself. */
  lemma QueueEffect(s: Lock, s': Lock, t: nat)
    requires Wellformed(s) && t < |s.phases| && !s.phases[t].Idle? && !s.phases[t].Ready? && s' == StepOf(s, t)
    requires PointsBelow(s.phases[t], |s.phases|)
    ensures s'.phases == s.phases[t := s'.phases[t]] && PointsBelow(s'.phases[t], |s.phases|) && |s'.records| == |s.records|
    ensures s'.order == s.order && s'.place == s.place
    ensures var p, p' := s.phases[t], s'.phases[t];
      if p.Handing? || (p.Leaving? && s.tail == Some(t)) then
        !Queued(p') && s'.front == s.front + 1 && s'.entered == s.entered
        && s'.tail == if p.Handing? then s.tail else None
      else
        && s'.front == s.front && s'.tail == s.tail && Queued(p') == Queued(p)
        && (if p.Taking? || p.First? then s'.entered == s.entered + 1 && Entered(p')
            else s'.entered == s.entered && Entered(p') == Entered(p))
  {
    hide QueueOk;
  }

  lemma QueueOfStep(s: Lock, t: nat)
    requires Inv(s) && t < |s.phases| && !s.phases[t].Idle? && !s.phases[t].Ready?
    ensures Wellformed(StepOf(s, t)) && QueueOk(StepOf(s, t))
  {
    hide Inv, QueueOk, Wellformed, FlagOk, NextOk, StepOf;
    Bounds(s, t);
    var s' := StepOf(s, t);
    QueueEffect(s, s', t);
    if Queued(s.phases[t]) {
      Whereabouts(s, t);
      if s'.front > s.front {
        QueueLeave(s, s', t, s'.phases[t]);
      } else {
        QueueMove(s, s', t, s'.phases[t]);
      }
    } else {
      QueueMove(s, s', t, s'.phases[t]);
    }
  }

  /** Position `i` of the queue, if there is one, holds a thread that is at place `i`. */
  lemma At(s: Lock, i: nat)
    requires Inv(s) && s.front <= i < |s.order|
    ensures s.order[i] < |s.phases| && s.place[s.order[i]] == i && Queued(s.phases[s.order[i]])
    ensures PointsBelow(s.phases[s.order[i]], |s.phases|)
    ensures i < s.entered <==> Entered(s.phases[s.order[i]])
    ensures QueueOk(s) && FlagOk(s, i) && NextOk(s, i)
    ensures i > s.front ==> FollowerOk(s, i)
  {
  }

  /** The shape of every step: one phase changes, and the front moves on a hand-over only. */
  ghost predicate Shape(s: Lock, s': Lock, t: nat)
    requires t < |s.phases| == |s.records|
  {
    && |s'.phases| == |s.phases| == |s'.records|
    && s'.phases == s.phases[t := s'.phases[t]] && s'.order == s.order && s'.place == s.place
    && s'.front == (if Leaves(s, t) then s.front + 1 else s.front)
  }

  predicate Leaves(s: Lock, t: nat)
    requires t < |s.phases|
  {
    s.phases[t].Handing? || (s.phases[t].Leaving? && s.tail == Some(t))
  }

  /** ReserveLock is stored to by its owner's release and by the successor that consumes it. */
  lemma FlagEffect(s: Lock, s': Lock, t: nat)
    requires Wellformed(s) && t < |s.phases| && s' == StepOf(s, t)
    ensures Shape(s, s', t)
    ensures var p, p' := s.phases[t], s'.phases[t];
      && (p.Taking? || p.First? ==> p' == Reserving)
      && (p.Reserving? ==> p' == Reserved)
      && (!p.Taking? && !p.First? && !p.Reserving? && !Leaves(s, t) ==> Entered(p') == Entered(p) && Released(p') == Released(p))
      && (forall x :: 0 <= x < |s.records| ==>
            s'.records[x].reserveLock ==
              (if p == Taking(x) then Consumed else if p.Reserving? && x == t then Go else s.records[x].reserveLock))
  {
  }

  /** Next is stored to by the successor that links itself. */
  lemma NextEffect(s: Lock, s': Lock, t: nat)
    requires Wellformed(s) && t < |s.phases| && s' == StepOf(s, t)
    ensures Shape(s, s', t)
    ensures var p, p' := s.phases[t], s'.phases[t];
      && !p'.Linking?
      && (p'.AwaitingNext? ==> p.AwaitingNext? || (p.Leaving? && s.tail != Some(t)))
      && (p'.Handing? ==> s.records[t].next == Some(p'.next))
      && (forall x :: 0 <= x < |s.records| ==>
            s'.records[x].next == (if p == Linking(x) then Some(t) else s.records[x].next))
  {
  }

  /** CommitLock is stored to by the predecessor that hands over, or by an uncontended owner. */
  lemma CommitEffect(s: Lock, s': Lock, t: nat)
    requires Wellformed(s) && t < |s.phases| && s' == StepOf(s, t)
    ensures Shape(s, s', t)
    ensures var p, p' := s.phases[t], s'.phases[t];
      && !p'.First? && !p'.Linking?
      && (Waiting(p') ==> Waiting(p) && PredOf(p') == PredOf(p))
      && (p.Awaiting? ==> p' == p || p' == Taking(p.pred))
      && (Released(p) && !Leaves(s, t) ==> Released(p'))
      && (InCommit(p') ==> InCommit(p) || s.records[t].commitLock.Go?)
      && (InCommit(p) && !Leaves(s, t) ==> InCommit(p'))
      && (p'.Taking? || Entered(p') ==>
            p.Taking? || p.First? || Entered(p) || (p.Awaiting? && s.records[p.pred].reserveLock.Go?))
      && (forall x :: 0 <= x < |s.records| ==>
            s'.records[x].commitLock == (if p == Handing(x) || (p.First? && x == t) then Go else s.records[x].commitLock))
  {
  }

  lemma FlagKept(s: Lock, s': Lock, i: nat)
    requires Wellformed(s) && QueueOk(s) && s.front <= i < |s.order| && FlagOk(s, i)
    requires Wellformed(s') && QueueOk(s') && s'.front <= i < |s'.order|
    requires s'.order[i] < |s'.phases| == |s'.records| && s.order[i] < |s.phases| == |s.records|
    requires RecordAt(s', i) == RecordAt(s, i) && PhaseAt(s', i) == PhaseAt(s, i)
    requires i + 1 < |s.order| ==> s.order[i + 1] < |s.phases|
    requires i + 1 < |s'.order| ==> s'.order[i + 1] < |s'.phases|
    requires SuccessorEntered(s', i) == SuccessorEntered(s, i)
    ensures FlagOk(s', i)
  {
    hide QueueOk, Wellformed, Entered, Released;
  }

  predicate SuccessorEntered(s: Lock, i: nat) {
    i + 1 < |s.order| && s.order[i + 1] < |s.phases| && Entered(s.phases[s.order[i + 1]])
  }

  /** The flag of a position that is neither the acting thread's nor the one it enters behind. */
  lemma FlagOfStranger(s: Lock, s': Lock, t: nat, i: nat)
    requires Inv(s) && t < |s.phases| && !s.phases[t].Idle? && !s.phases[t].Ready?
    requires s' == StepOf(s, t) && Wellformed(s') && QueueOk(s')
    requires s.front <= s'.front <= i < |s.order| && s.order[i] != t && !(i + 1 < |s.order| && s.order[i + 1] == t)
    ensures i < |s'.order| && FlagOk(s', i)
  {
    hide Inv, QueueOk, Wellformed, NextOk, StepOf;
    Bounds(s, t);
    FlagEffect(s, s', t);
    At(s, i);
    if i + 1 < |s.order| {
      At(s, i + 1);
    }
    if s.phases[t].Taking? {
      Whereabouts(s, t);
      if s.place[t] > s.front {
        At(s, s.place[t] - 1);
      }
    }
    RecordLocal(s, s', i);
  }

  lemma RecordLocal(s: Lock, s': Lock, i: nat)
    requires Wellformed(s) && QueueOk(s) && s.front <= i < |s.order| && FlagOk(s, i)
    requires Wellformed(s') && QueueOk(s') && s'.front <= i < |s'.order| && s'.order == s.order
    requires s.order[i] < |s.phases| == |s.records| == |s'.phases| == |s'.records|
    requires i + 1 < |s.order| ==> s.order[i + 1] < |s.phases| && s'.phases[s.order[i + 1]] == s.phases[s.order[i + 1]]
    requires s'.records[s.order[i]].reserveLock == s.records[s.order[i]].reserveLock
    requires s'.phases[s.order[i]] == s.phases[s.order[i]]
    ensures FlagOk(s', i)
  {
    hide QueueOk, Wellformed, Entered, Released;
  }

  /** The flag of the acting thread itself. */
  lemma FlagOfSelf(s: Lock, s': Lock, t: nat, i: nat)
    requires Inv(s) && t < |s.phases| && !s.phases[t].Idle? && !s.phases[t].Ready?
    requires s' == StepOf(s, t) && Wellformed(s') && QueueOk(s')
    requires s.front <= s'.front <= i < |s.order| && s.order[i] == t
    ensures i < |s'.order| && FlagOk(s', i)
  {
    hide Inv, QueueOk, Wellformed, NextOk, StepOf, FollowerOk;
    Bounds(s, t);
    At(s, i);
    FlagEffect(s, s', t);
    if i + 1 < |s.order| {
      At(s, i + 1);
      EnteredInOrder(s, i);
    }
    if s.phases[t].Taking? {
      TakesFromPred(s, t);
    }
  }

  /** A thread that has not released its reserve section has no successor in one. */
  lemma EnteredInOrder(s: Lock, i: nat)
    requires Inv(s) && s.front <= i && i + 1 < |s.order|
    ensures s.order[i] < |s.phases| && s.order[i + 1] < |s.phases|
    ensures Entered(s.phases[s.order[i + 1]]) ==> Released(s.phases[s.order[i]])
  {
    hide Inv, QueueOk, Wellformed, NextOk, FlagOk;
    At(s, i);
    At(s, i + 1);
  }

  lemma TakesFromPred(s: Lock, t: nat)
    requires Inv(s) && t < |s.phases| && s.phases[t].Taking?
    ensures s.phases[t].pred != t && s.front <= s.place[t] < |s.order|
    ensures s.place[t] > s.front ==> s.phases[t].pred == s.order[s.place[t] - 1]
    ensures s.place[t] == s.front ==> s.phases[t].pred < |s.phases| && s.phases[s.phases[t].pred].Draining?
  {
    hide Inv, QueueOk, Wellformed, NextOk, FlagOk;
    Bounds(s, t);
    Whereabouts(s, t);
    if s.place[t] > s.front {
      At(s, s.place[t] - 1);
      At(s, s.place[t]);
    }
  }

  /** The flag of the one before the acting thread. */
  lemma FlagOfPred(s: Lock, s': Lock, t: nat, i: nat)
    requires Inv(s) && t < |s.phases| && !s.phases[t].Idle? && !s.phases[t].Ready?
    requires s' == StepOf(s, t) && Wellformed(s') && QueueOk(s')
    requires s.front <= s'.front <= i && i + 1 < |s.order| && s.order[i + 1] == t
    ensures i < |s'.order| && FlagOk(s', i)
  {
    hide Inv, QueueOk, Wellformed, NextOk, StepOf, FollowerOk;
    Bounds(s, t);
    At(s, i);
    At(s, i + 1);
    FlagEffect(s, s', t);
    if s.phases[t].Taking? {
      TakesFromPred(s, t);
    }
    if Leaves(s, t) || s.phases[t].First? {
      Whereabouts(s, t);
    }
  }

  lemma FlagOfStep(s: Lock, s': Lock, t: nat, i: nat)
    requires Inv(s) && t < |s.phases| && !s.phases[t].Idle? && !s.phases[t].Ready?
    requires s' == StepOf(s, t) && Wellformed(s') && QueueOk(s')
    requires s.front <= s'.front <= i < |s.order|
    ensures i < |s'.order| && FlagOk(s', i)
  {
    hide Inv, QueueOk, Wellformed, NextOk, FlagOk, StepOf;
    Bounds(s, t);
    At(s, i);
    if s.order[i] == t {
      FlagOfSelf(s, s', t, i);
    } else if i + 1 < |s.order| && s.order[i + 1] == t {
      FlagOfPred(s, s', t, i);
    } else {
      FlagOfStranger(s, s', t, i);
    }
  }

  lemma NextOfSelf(s: Lock, s': Lock, t: nat, i: nat)
    requires Inv(s) && t < |s.phases| && !s.phases[t].Idle? && !s.phases[t].Ready?
    requires s' == StepOf(s, t) && Wellformed(s') && QueueOk(s')
    requires s.front <= s'.front <= i < |s.order| && s.order[i] == t
    ensures i < |s'.order| && NextOk(s', i)
  {
    hide Inv, QueueOk, Wellformed, FlagOk, FollowerOk, StepOf;
    Bounds(s, t);
    NextEffect(s, s', t);
    At(s, i);
    Whereabouts(s, t);
    if i + 1 < |s.order| {
      At(s, i + 1);
    }
    if s.phases[t].Linking? {
      At(s, i - 1);
    }
  }

  lemma NextOfOther(s: Lock, s': Lock, t: nat, i: nat)
    requires Inv(s) && t < |s.phases| && !s.phases[t].Idle? && !s.phases[t].Ready?
    requires s' == StepOf(s, t) && Wellformed(s') && QueueOk(s')
    requires s.front <= s'.front <= i < |s.order| && s.order[i] != t
    ensures i < |s'.order| && NextOk(s', i)
  {
    hide Inv, QueueOk, Wellformed, FlagOk, FollowerOk, NextOk, StepOf;
    Bounds(s, t);
    if s.phases[t].Linking? {
      NextOfLinking(s, s', t, i);
    } else {
      NextOfUnlinked(s, s', t, i);
    }
  }

  /** A thread that has yet to link itself is behind the thread it links to. */
  lemma LinkerAt(s: Lock, t: nat)
    requires Inv(s) && t < |s.phases| && s.phases[t].Linking?
    ensures s.front < s.place[t] < |s.order| && s.order[s.place[t]] == t && s.phases[t].pred == s.order[s.place[t] - 1]
  {
    hide Inv, QueueOk, Wellformed, FlagOk, FollowerOk, NextOk;
    Bounds(s, t);
    Whereabouts(s, t);
  }

  lemma NextOfLinking(s: Lock, s': Lock, t: nat, i: nat)
    requires Inv(s) && t < |s.phases| && s.phases[t].Linking?
    requires s' == StepOf(s, t) && Wellformed(s') && QueueOk(s')
    requires s.front <= s'.front <= i < |s.order| && s.order[i] != t
    ensures i < |s'.order| && NextOk(s', i)
  {
    hide Inv, QueueOk, Wellformed, FlagOk, FollowerOk, StepOf;
    Bounds(s, t);
    LinkerAt(s, t);
    NextEffect(s, s', t);
    At(s, i);
    if i + 1 < |s.order| {
      At(s, i + 1);
    }
    At(s, s.place[t] - 1);
  }

  lemma NextOfUnlinked(s: Lock, s': Lock, t: nat, i: nat)
    requires Inv(s) && t < |s.phases| && !s.phases[t].Idle? && !s.phases[t].Ready? && !s.phases[t].Linking?
    requires s' == StepOf(s, t) && Wellformed(s') && QueueOk(s')
    requires s.front <= s'.front <= i < |s.order| && s.order[i] != t
    ensures i < |s'.order| && NextOk(s', i)
  {
    hide Inv, QueueOk, Wellformed, FlagOk, FollowerOk, StepOf;
    Bounds(s, t);
    NextEffect(s, s', t);
    At(s, i);
    if i + 1 < |s.order| {
      At(s, i + 1);
    }
  }

  lemma FollowerOfStep(s: Lock, s': Lock, t: nat, i: nat)
    requires Inv(s) && t < |s.phases| && !s.phases[t].Idle? && !s.phases[t].Ready?
    requires s' == StepOf(s, t) && Wellformed(s') && QueueOk(s')
    requires s.front <= s'.front < i < |s.order|
    ensures i < |s'.order| && FollowerOk(s', i)
  {
    hide Inv, QueueOk, Wellformed, NextOk, StepOf;
    Bounds(s, t);
    CommitEffect(s, s', t);
    At(s, i);
    At(s, i - 1);
    if Queued(s.phases[t]) {
      Whereabouts(s, t);
    }
  }

  /** A thread drains from its hand-over until its own ReserveLock was consumed. */
  lemma DrainEffect(s: Lock, s': Lock, t: nat)
    requires Wellformed(s) && t < |s.phases| && s' == StepOf(s, t)
    ensures Shape(s, s', t)
    ensures s.phases[t].Draining? && !s.records[t].reserveLock.Consumed? ==> s' == s
    ensures s'.phases[t].Draining? ==> s.phases[t].Draining? || s.phases[t].Handing?
    ensures s.phases[t].Handing? ==> s'.phases[t].Draining?
  {
  }

  /** The successor comes to the front with its commit lock set, perhaps still waiting. */
  lemma FrontAfterHandOver(s: Lock, s': Lock, t: nat)
    requires Inv(s) && t < |s.phases| && !s.phases[t].Idle? && !s.phases[t].Ready?
    requires s' == StepOf(s, t) && Wellformed(s') && QueueOk(s')
    requires s.phases[t].Handing?
    ensures FrontOk(s')
  {
    hide Inv, QueueOk, Wellformed, StepOf;
    Bounds(s, t);
    Whereabouts(s, t);
    CommitEffect(s, s', t);
    FlagEffect(s, s', t);
    DrainEffect(s, s', t);
    At(s, s.front);
    At(s, s.front + 1);
  }

  lemma FrontOfStep(s: Lock, s': Lock, t: nat)
    requires Inv(s) && t < |s.phases| && !s.phases[t].Idle? && !s.phases[t].Ready?
    requires s' == StepOf(s, t) && Wellformed(s') && QueueOk(s')
    ensures FrontOk(s')
  {
    hide Inv, QueueOk, Wellformed, StepOf, FollowerOk, FlagOk, NextOk;
    Bounds(s, t);
    FrontAndSelf(s, t);
    DrainEffect(s, s', t);
    if s.phases[t].Handing? {
      FrontAfterHandOver(s, s', t);
    } else if s.front < |s.order| {
      CommitEffect(s, s', t);
      FlagEffect(s, s', t);
      At(s, s.front);
      if Queued(s.phases[t]) {
        Whereabouts(s, t);
        if s.place[t] > s.front {
          At(s, s.place[t] - 1);
        }
      }
    }
  }

  /** A thread that has just handed over: its successor waits on it or has consumed its record. */
  lemma HandedOver(s: Lock, s': Lock, t: nat)
    requires Inv(s) && t < |s.phases| && !s.phases[t].Idle? && !s.phases[t].Ready?
    requires s' == StepOf(s, t) && Wellformed(s') && QueueOk(s')
    requires s.phases[t].Handing?
    ensures DrainingOk(s', t)
  {
    hide Inv, QueueOk, Wellformed, StepOf;
    Bounds(s, t);
    Whereabouts(s, t);
    DrainEffect(s, s', t);
    FlagEffect(s, s', t);
    At(s, s.front);
    At(s, s.front + 1);
  }

  lemma DrainingOfStep(s: Lock, s': Lock, t: nat, u: nat)
    requires Inv(s) && t < |s.phases| && !s.phases[t].Idle? && !s.phases[t].Ready?
    requires s' == StepOf(s, t) && Wellformed(s') && QueueOk(s')
    requires u < |s'.phases|
    ensures DrainingOk(s', u)
  {
    hide Inv, QueueOk, Wellformed, StepOf;
    Bounds(s, t);
    DrainEffect(s, s', t);
    FlagEffect(s, s', t);
    if u == t && s.phases[t].Handing? {
      HandedOver(s, s', t);
    } else {
      CommitEffect(s, s', t);
      FrontAndSelf(s, u);
      if Queued(s.phases[t]) {
        Whereabouts(s, t);
        if s.place[t] > s.front {
          At(s, s.place[t] - 1);
        }
      }
      if s.front < |s.order| {
        At(s, s.front);
      }
    }
  }

  /** The logs are written on entering the reserve and the commit section. */
  lemma LogEffect(s: Lock, s': Lock, t: nat)
    requires Wellformed(s) && t < |s.phases| && s' == StepOf(s, t)
    ensures Shape(s, s', t)
    ensures var p, p' := s.phases[t], s'.phases[t];
      && (if p.Taking? || p.First? then s'.entered == s.entered + 1 && s'.reserveLog == s.reserveLog + [t]
          else s'.entered == s.entered && s'.reserveLog == s.reserveLog)
      && (if InCommit(p') && !InCommit(p) then p.Reserved? && s.records[t].commitLock.Go? && s'.commitLog == s.commitLog + [t]
          else s'.commitLog == s.commitLog)
      && (InCommit(p) ==> InCommit(p') || Leaves(s, t))
  {
  }

  /** Only the front of the queue can be in its commit section. */
  lemma InCommitAtFront(s: Lock, i: nat)
    requires Inv(s) && s.front < i < |s.order|
    ensures s.order[i] < |s.phases| && !InCommit(s.phases[s.order[i]])
  {
    hide Inv, QueueOk, Wellformed, FlagOk, NextOk;
    At(s, i);
  }

  lemma ReserveLogOfStep(s: Lock, s': Lock, t: nat)
    requires Inv(s) && t < |s.phases| && !s.phases[t].Idle? && !s.phases[t].Ready?
    requires s' == StepOf(s, t) && Wellformed(s') && QueueOk(s')
    ensures s'.entered <= |s'.order| && s'.reserveLog == s'.order[..s'.entered]
  {
    hide Inv, QueueOk, Wellformed, FlagOk, NextOk, StepOf, InCommit, Released;
    Bounds(s, t);
    LogsNow(s);
    LogEffect(s, s', t);
    if s.phases[t].Taking? || s.phases[t].First? {
      Whereabouts(s, t);
    }
  }

  lemma CommitLogOfStep(s: Lock, s': Lock, t: nat)
    requires Inv(s) && t < |s.phases| && !s.phases[t].Idle? && !s.phases[t].Ready?
    requires s' == StepOf(s, t) && Wellformed(s') && QueueOk(s')
    requires s'.front <= |s'.order| && (s'.front < |s'.order| ==> s'.order[s'.front] < |s'.phases|)
    ensures s'.commitLog ==
      s'.order[..if s'.front < |s'.order| && InCommit(PhaseAt(s', s'.front)) then s'.front + 1 else s'.front]
  {
    hide Inv, QueueOk, Wellformed, FlagOk, NextOk, StepOf, InCommit;
    Bounds(s, t);
    LogsNow(s);
    LogEffect(s, s', t);
    if Leaves(s, t) || InCommit(s.phases[t]) || s.phases[t].Reserved? {
      LeaverInCommit(s, t);
      Whereabouts(s, t);
    }
    if s.front < |s.order| {
      At(s, s.front);
    }
    if s.front + 1 < |s.order| {
      InCommitAtFront(s, s.front + 1);
    }
  }

  lemma LeaverInCommit(s: Lock, t: nat)
    requires t < |s.phases| && (Leaves(s, t) || InCommit(s.phases[t]) || s.phases[t].Reserved?)
    ensures Queued(s.phases[t]) && (Leaves(s, t) ==> InCommit(s.phases[t]))
  {
  }

  lemma LogsOfStep(s: Lock, s': Lock, t: nat)
    requires Inv(s) && t < |s.phases| && !s.phases[t].Idle? && !s.phases[t].Ready?
    requires s' == StepOf(s, t) && Wellformed(s') && QueueOk(s')
    ensures LogsOk(s')
  {
    hide Inv, StepOf;
    ReserveLogOfStep(s, s', t);
    CommitLogOfStep(s, s', t);
  }

  lemma LogsNow(s: Lock)
    requires Inv(s)
    ensures Wellformed(s) && QueueOk(s) && LogsOk(s) && ReadyOk(s)
  {
  }

  /** The foreign record a thread is about to access, if any. */
  function Touches(p: Phase): Option<nat> {
    match p
    case Linking(o) => Some(o)
    case Awaiting(o) => Some(o)
    case Taking(o) => Some(o)
    case Handing(o) => Some(o)
    case _ => None
  }

  /** Stack safety: a foreign record is accessed only while its owner is inside a call. */
  lemma TouchesLive(s: Lock, t: nat)
    requires Inv(s) && t < |s.phases| && Touches(s.phases[t]).Some?
    ensures var o := Touches(s.phases[t]).value;
      o < |s.phases| && o != t && !s.phases[o].Idle? && !s.phases[o].Ready?
  {
    hide Inv, QueueOk, Wellformed, FlagOk, FollowerOk;
    Bounds(s, t);
    Whereabouts(s, t);
    if s.place[t] > s.front {
      At(s, s.place[t] - 1);
    }
    if s.place[t] + 1 < |s.order| {
      At(s, s.place[t] + 1);
    }
  }

  lemma ReadyOfStep(s: Lock, s': Lock, t: nat, u: nat)
    requires Inv(s) && t < |s.phases| && !s.phases[t].Idle? && !s.phases[t].Ready?
    requires s' == StepOf(s, t) && Wellformed(s') && QueueOk(s')
    requires u < |s'.phases| && s'.phases[u].Ready?
    ensures u < |s'.records| && s'.records[u] == Record(Wait, Wait, None)
  {
    hide Inv, QueueOk, Wellformed, StepOf, Released;
    Bounds(s, t);
    LogsNow(s);
    FlagEffect(s, s', t);
    NextEffect(s, s', t);
    CommitEffect(s, s', t);
    NeverReady(s, t);
    if Touches(s.phases[t]).Some? {
      TouchesLive(s, t);
    }
  }

  lemma NeverReady(s: Lock, t: nat)
    requires Wellformed(s) && t < |s.phases| && !s.phases[t].Ready?
    ensures !StepOf(s, t).phases[t].Ready?
  {
  }

  lemma StepOfInv(s: Lock, t: nat)
    requires Inv(s) && t < |s.phases| && !s.phases[t].Idle? && !s.phases[t].Ready?
    ensures Inv(StepOf(s, t))
  {
    Bounds(s, t);
    hide FrontOk, LogsOk, FollowerOk, FlagOk, NextOk, DrainingOk, QueueOk, Wellformed, StepOf;
    QueueOfStep(s, t);
    var s' := StepOf(s, t);
    LogEffect(s, s', t);
    FrontOfStep(s, s', t);
    LogsOfStep(s, s', t);
    forall u | 0 <= u < |s'.phases| && s'.phases[u].Ready?
      ensures u < |s'.records| && s'.records[u] == Record(Wait, Wait, None)
    {
      ReadyOfStep(s, s', t, u);
    }
    forall i | s'.front <= i < |s'.order|
      ensures FlagOk(s', i) && NextOk(s', i)
    {
      FlagOfStep(s, s', t, i);
      if s.order[i] == t {
        NextOfSelf(s, s', t, i);
      } else {
        NextOfOther(s, s', t, i);
      }
    }
    forall i | s'.front < i < |s'.order|
      ensures FollowerOk(s', i)
    {
      FollowerOfStep(s, s', t, i);
    }
    forall u | 0 <= u < |s'.phases|
      ensures DrainingOk(s', u)
    {
      DrainingOfStep(s, s', t, u);
    }
  }

  /** A step that only touches thread `t`, which was outside the queue: it joins at the end with a
      fresh record, or stays outside. */
  ghost predicate Outside(s: Lock, s': Lock, t: nat)
    requires t < |s.phases| == |s.records| == |s.place| && (s.tail.Some? ==> s.front < |s.order|)
  {
    && (s.phases[t].Idle? || s.phases[t].Ready?)
    && |s'.phases| == |s.phases| == |s'.records|
    && s'.phases == s.phases[t := s'.phases[t]] && s'.front == s.front
    && s'.entered == s.entered && s'.reserveLog == s.reserveLog && s'.commitLog == s.commitLog
    && (forall u :: 0 <= u < |s.records| && u != t ==> s'.records[u] == s.records[u])
    && if s'.phases[t].Idle? || s'.phases[t].Ready?
       then s'.order == s.order && s'.place == s.place && s'.tail == s.tail
       else
         && s'.phases[t] == (if s.tail.None? then First else Linking(s.tail.value))
         && s'.order == s.order + [t] && s'.place == s.place[t := |s.order|] && s'.tail == Some(t)
         && s'.records[t] == Record(Wait, Wait, None)
  }

  lemma QueueOutside(s: Lock, s': Lock, t: nat)
    requires Inv(s) && t < |s.phases| && Outside(s, s', t)
    ensures Wellformed(s') && QueueOk(s')
  {
    hide Inv, QueueOk, Wellformed;
    Bounds(s, t);
    if s'.phases[t].Idle? || s'.phases[t].Ready? {
      QueueMove(s, s', t, s'.phases[t]);
    } else {
      QueueJoin(s, s', t, s'.phases[t]);
    }
  }

  /** A queued thread and its record, seen after something happened outside the queue. */
  lemma OldPosition(s: Lock, s': Lock, t: nat, i: nat)
    requires Inv(s) && t < |s.phases| && Outside(s, s', t) && s.front <= i < |s.order|
    ensures Wellformed(s) && QueueOk(s) && s.order[i] < |s.phases| && i < |s'.order|
    ensures s'.order[i] == s.order[i] && s'.phases[s.order[i]] == s.phases[s.order[i]]
    ensures s'.records[s.order[i]] == s.records[s.order[i]]
    ensures FlagOk(s, i) && NextOk(s, i) && s'.front == s.front
  {
    hide Inv, QueueOk, Wellformed, FollowerOk, FlagOk, NextOk;
    Bounds(s, t);
    At(s, i);
  }

  /** The position a thread joins at, if it does. */
  lemma NewPosition(s: Lock, s': Lock, t: nat)
    requires Inv(s) && t < |s.phases| && Outside(s, s', t)
    ensures Wellformed(s) && QueueOk(s) && s'.front == s.front <= |s.order| <= |s'.order| <= |s.order| + 1
    ensures |s'.phases| == |s.phases| == |s'.records| == |s.records|
    ensures |s'.order| > |s.order| ==>
      && s'.order[|s.order|] == t && s'.records[t] == Record(Wait, Wait, None)
      && (if s.front == |s.order| then s'.phases[t].First? else s'.phases[t].Linking?)
  {
    hide Inv, QueueOk, Wellformed;
    Bounds(s, t);
  }

  lemma FlagOutside(s: Lock, s': Lock, t: nat, i: nat)
    requires Inv(s) && t < |s.phases| && Outside(s, s', t) && Wellformed(s') && QueueOk(s')
    requires s'.front <= i < |s'.order|
    ensures FlagOk(s', i)
  {
    hide Inv, QueueOk, Wellformed, NextOk, Outside;
    NewPosition(s, s', t);
    if i < |s.order| {
      OldPosition(s, s', t, i);
      if i + 1 < |s.order| {
        OldPosition(s, s', t, i + 1);
      }
      FlagKept(s, s', i);
    }
  }

  lemma NextOutside(s: Lock, s': Lock, t: nat, i: nat)
    requires Inv(s) && t < |s.phases| && Outside(s, s', t) && Wellformed(s') && QueueOk(s')
    requires s'.front <= i < |s'.order|
    ensures NextOk(s', i)
  {
    hide Inv, QueueOk, Wellformed, FlagOk, Outside;
    NewPosition(s, s', t);
    if i < |s.order| {
      OldPosition(s, s', t, i);
      if i + 1 < |s.order| {
        OldPosition(s, s', t, i + 1);
      } else if |s'.order| > |s.order| {
        assert PhaseAt(s', i + 1) == s'.phases[t];
      } else {
        assert |s'.order| == i + 1;
      }
    }
  }

  lemma FollowerOutside(s: Lock, s': Lock, t: nat, i: nat)
    requires Inv(s) && t < |s.phases| && Outside(s, s', t) && Wellformed(s') && QueueOk(s')
    requires s'.front < i < |s'.order|
    ensures FollowerOk(s', i)
  {
    hide Inv, QueueOk, Wellformed, FlagOk, NextOk;
    Bounds(s, t);
    At(s, i - 1);
    if i < |s.order| {
      At(s, i);
    }
  }

  lemma FrontOutside(s: Lock, s': Lock, t: nat)
    requires Inv(s) && t < |s.phases| && Outside(s, s', t) && Wellformed(s') && QueueOk(s')
    ensures FrontOk(s') && LogsOk(s')
  {
    hide Inv, QueueOk, Wellformed;
    Bounds(s, t);
    FrontAndSelf(s, t);
    LogsNow(s);
    if s.front < |s.order| {
      At(s, s.front);
    }
  }

  lemma DrainingOutside(s: Lock, s': Lock, t: nat, u: nat)
    requires Inv(s) && t < |s.phases| && Outside(s, s', t) && Wellformed(s') && QueueOk(s')
    requires u < |s.phases|
    ensures DrainingOk(s', u)
  {
    hide Inv, QueueOk, Wellformed;
    Bounds(s, t);
    FrontAndSelf(s, u);
    if s.front < |s.order| {
      At(s, s.front);
    }
  }

  lemma ReadyOutside(s: Lock, s': Lock, t: nat)
    requires Inv(s) && t < |s.phases| && Outside(s, s', t) && Wellformed(s') && QueueOk(s')
    requires s'.phases[t].Ready? ==> s'.records[t] == Record(Wait, Wait, None)
    ensures ReadyOk(s')
  {
    hide Inv, QueueOk;
    LogsNow(s);
  }

  lemma OutsideInv(s: Lock, s': Lock, t: nat)
    requires Inv(s) && t < |s.phases| && Outside(s, s', t)
    requires s'.phases[t].Ready? ==> s'.records[t] == Record(Wait, Wait, None)
    ensures Inv(s')
  {
    QueueOutside(s, s', t);
    ReadyOutside(s, s', t);
    hide ReadyOk, FrontOk, LogsOk, FollowerOk, FlagOk, NextOk, DrainingOk, QueueOk, Wellformed;
    FrontOutside(s, s', t);
    forall i | s'.front <= i < |s'.order|
      ensures FlagOk(s', i) && NextOk(s', i)
    {
      FlagOutside(s, s', t, i);
      NextOutside(s, s', t, i);
    }
    forall i | s'.front < i < |s'.order|
      ensures FollowerOk(s', i)
    {
      FollowerOutside(s, s', t, i);
    }
    forall u | 0 <= u < |s'.phases|
      ensures DrainingOk(s', u)
    {
      DrainingOutside(s, s', t, u);
    }
  }

  /** The lock's invariant, one step: whatever any thread does next. */
  lemma ApplyInv(s: Lock, a: Action)
    requires Inv(s) && Enabled(s, a)
    ensures Inv(Apply(s, a))
  {
    hide Inv, QueueOk, Wellformed, StepOf;
    Bounds(s, a.tid);
    LogsNow(s);
    if a.Step? {
      StepOfInv(s, a.tid);
    } else {
      OutsideInv(s, Apply(s, a), a.tid);
    }
  }

  // ---------------------------------------------------------------------------------------------
  // Whole runs
  // ---------------------------------------------------------------------------------------------

  ghost predicate CanRun(s: Lock, run: seq<Action>)
    decreases |run|
  {
    run == [] || (Wellformed(s) && Enabled(s, run[0]) && CanRun(Apply(s, run[0]), run[1..]))
  }

  ghost function Run(s: Lock, run: seq<Action>): Lock
    requires CanRun(s, run)
    decreases |run|
  {
    if run == [] then s else Run(Apply(s, run[0]), run[1..])
  }

  lemma {:induction false} RunInv(s: Lock, run: seq<Action>)
    requires Inv(s) && CanRun(s, run)
    ensures Inv(Run(s, run))
    decreases |run|
  {
    hide Inv;
    if run != [] {
      ApplyInv(s, run[0]);
      RunInv(Apply(s, run[0]), run[1..]);
    }
  }

  /** Whoever is ahead of a thread that entered its reserve section has left its own. */
  lemma {:induction false} ReleasedAhead(s: Lock, i: nat, j: nat)
    requires Inv(s) && s.front <= i < j < |s.order| && s.order[j] < |s.phases| && Entered(s.phases[s.order[j]])
    ensures s.order[i] < |s.phases| && Released(s.phases[s.order[i]])
    decreases j
  {
    hide Inv, QueueOk;
    At(s, j);
    At(s, j - 1);
    if i < j - 1 {
      ReleasedAhead(s, i, j - 1);
    }
  }

  lemma OneReserver(s: Lock, t: nat, u: nat)
    requires Inv(s) && t < |s.phases| && u < |s.phases| && s.phases[t].Reserving? && s.phases[u].Reserving?
    ensures t == u
  {
    hide Inv, QueueOk;
    Bounds(s, t);
    Whereabouts(s, t);
    Whereabouts(s, u);
    if s.place[t] < s.place[u] {
      ReleasedAhead(s, s.place[t], s.place[u]);
    } else if s.place[u] < s.place[t] {
      ReleasedAhead(s, s.place[u], s.place[t]);
    }
  }

  lemma OneCommitter(s: Lock, t: nat, u: nat)
    requires Inv(s) && t < |s.phases| && u < |s.phases| && InCommit(s.phases[t]) && InCommit(s.phases[u])
    ensures t == u
  {
    hide Inv, QueueOk;
    Whereabouts(s, t);
    Whereabouts(s, u);
  }

  /** The commit log never runs ahead of the reserve log, and both follow the swaps. */
  lemma OrderKept(s: Lock)
    requires Inv(s)
    ensures s.commitLog <= s.reserveLog <= s.order
  {
    hide Inv;
    LogsNow(s);
    if s.front < |s.order| {
      At(s, s.front);
    }
  }

  /** In every state of every run: at most one thread reserves and at most one commits; commits and
      cancellations take place in exactly the order of the reservations; and no thread is about to
      access the record of a thread whose releaseCommitLock has returned. */
  lemma TwoPhaseSafety(threads: nat, run: seq<Action>)
    requires CanRun(Init(threads), run)
    ensures var s := Run(Init(threads), run);
      && (forall t, u :: 0 <= t < |s.phases| && 0 <= u < |s.phases| && s.phases[t].Reserving? && s.phases[u].Reserving? ==> t == u)
      && (forall t, u :: 0 <= t < |s.phases| && 0 <= u < |s.phases| && InCommit(s.phases[t]) && InCommit(s.phases[u]) ==> t == u)
      && s.commitLog <= s.reserveLog <= s.order
      && (forall t :: 0 <= t < |s.phases| && Touches(s.phases[t]).Some? ==>
            var o := Touches(s.phases[t]).value;
            o < |s.phases| && o != t && !s.phases[o].Idle? && !s.phases[o].Ready?)
  {
    InitInv(threads);
    RunInv(Init(threads), run);
    var s := Run(Init(threads), run);
    hide Inv, Run, Init, Touches;
    forall t, u | 0 <= t < |s.phases| && 0 <= u < |s.phases| && s.phases[t].Reserving? && s.phases[u].Reserving?
      ensures t == u
    {
      OneReserver(s, t, u);
    }
    forall t, u | 0 <= t < |s.phases| && 0 <= u < |s.phases| && InCommit(s.phases[t]) && InCommit(s.phases[u])
      ensures t == u
    {
      OneCommitter(s, t, u);
    }
    OrderKept(s);
    forall t | 0 <= t < |s.phases| && Touches(s.phases[t]).Some?
      ensures var o := Touches(s.phases[t]).value;
        o < |s.phases| && o != t && !s.phases[o].Idle? && !s.phases[o].Ready?
    {
      TouchesLive(s, t);
    }
  }
}
