/** Who waits for whom at the two-phase lock: how a caller joins the line, and that nobody in it waits in vain. */
module TwoPhaseProgress {
  import opened Common
  import opened TwoPhaseLock

  /** A thread that is not inside a call may start one, with a fresh record. */
  lemma MayBegin(s: Lock, t: nat)
    requires Inv(s) && t < |s.phases| && s.phases[t].Idle?
    ensures Wellformed(s) && Enabled(s, Begin(t)) && Wellformed(Apply(s, Begin(t)))
    ensures var s' := Apply(s, Begin(t));
      && s' == s.(phases := s.phases[t := Ready], records := s.records[t := Record(Wait, Wait, None)])
      && Enabled(s', SwapIn(t)) && Enabled(s', TrySwapIn(t))
  {
    hide Inv, QueueOk;
    Bounds(s, t);
  }

  /** acquireReserveLock always joins the line, behind the last caller in it if there is one. */
  lemma SwapJoins(s: Lock, t: nat)
    requires Inv(s) && Enabled(s, SwapIn(t))
    ensures var s' := Apply(s, SwapIn(t));
      && s'.order == s.order + [t] && s'.tail == Some(t) && |s'.phases| == |s.phases|
      && s'.phases[t] == if s.front == |s.order| then First else Linking(s.order[|s.order| - 1])
  {
    hide Inv;
    Bounds(s, t);
  }

  /** tryAcquireReserveLock joins the line if and only if nobody is in it, and then its next access
      puts it in the reserve section with its commit lock; otherwise it leaves everything as it is. */
  lemma TryJoins(s: Lock, t: nat)
    requires Inv(s) && Enabled(s, TrySwapIn(t))
    ensures s.front == |s.order| ==>
      var s' := Apply(s, TrySwapIn(t));
      && s'.order == s.order + [t] && s'.tail == Some(t) && Wellformed(s') && Enabled(s', Step(t))
      && var s'' := Apply(s', Step(t));
        |s''.phases| == |s''.records| == |s.phases| && s''.phases[t].Reserving? && s''.records[t].commitLock.Go?
    ensures s.front < |s.order| ==> Apply(s, TrySwapIn(t)) == s.(phases := s.phases[t := Idle])
  {
    hide Inv, QueueOk;
    Bounds(s, t);
  }

  /** A caller waits for the one before it to leave its reserve section, for its turn to commit, for its
      successor to link itself, or for the one at the front to consume its record. */
  ghost predicate Blocked(s: Lock, t: nat)
    requires Wellformed(s) && QueueOk(s) && t < |s.phases|
  {
    match s.phases[t]
    case Awaiting(pred) => !Released(s.phases[pred]) && !s.phases[pred].Draining?
    case Reserved => s.place[t] != s.front
    case AwaitingNext =>
      s.front + 1 < |s.order| && s.order[s.front + 1] < |s.phases| && PhaseAt(s, s.front + 1).Linking?
    case Draining =>
      s.front < |s.order| && (PhaseAt(s, s.front) == Awaiting(t) || PhaseAt(s, s.front) == Taking(t))
    case _ => false
  }

  /** The caller behind the one at the front has linked itself. */
  predicate SuccessorLinked(s: Lock) {
    s.front + 1 < |s.order| && s.order[s.front + 1] < |s.phases| && !PhaseAt(s, s.front + 1).Linking?
  }

  /** Where a caller goes next, by its place in the line and where the others in it are, instead of by
      the flags and links it reads. */
  ghost function Follows(s: Lock, t: nat): Phase
    requires Wellformed(s) && QueueOk(s) && t < |s.phases|
  {
    match s.phases[t]
    case Linking(pred) => Awaiting(pred)
    case Awaiting(pred) => if Blocked(s, t) then Awaiting(pred) else Taking(pred)
    case Taking(_) => Reserving
    case First => Reserving
    case Reserving => Reserved
    case Reserved => if Blocked(s, t) then Reserved else Committing
    case Committing => if SuccessorLinked(s) then Handing(s.order[s.front + 1]) else Leaving
    case Leaving => if s.front + 1 == |s.order| then Idle else AwaitingNext
    case AwaitingNext => if SuccessorLinked(s) then Handing(s.order[s.front + 1]) else AwaitingNext
    case Handing(_) => Draining
    case Draining => if Blocked(s, t) then Draining else Idle
    case _ => s.phases[t]
  }

  /** How many accesses a call has ahead of it at most, waiting aside. */
  function Ahead(p: Phase): nat {
    match p
    case Idle => 0
    case Ready => 12
    case Linking(_) => 11
    case Awaiting(_) => 10
    case Taking(_) => 9
    case First => 9
    case Reserving => 8
    case Reserved => 7
    case Committing => 6
    case Leaving => 5
    case AwaitingNext => 4
    case Handing(_) => 3
    case Draining => 2
  }

  /** What a caller reads from the one before it, or from its own record, while it spins. */
  lemma AwaitingReads(s: Lock, t: nat)
    requires Inv(s) && t < |s.phases| && s.phases[t].Awaiting?
    ensures Wellformed(s) && QueueOk(s) && (Blocked(s, t) <==> !s.records[s.phases[t].pred].reserveLock.Go?)
  {
    hide Inv, QueueOk;
    Bounds(s, t);
    Whereabouts(s, t);
    if s.place[t] > s.front {
      At(s, s.place[t]);
      At(s, s.place[t] - 1);
    }
  }

  lemma ReservedReads(s: Lock, t: nat)
    requires Inv(s) && t < |s.phases| && s.phases[t].Reserved?
    ensures Wellformed(s) && QueueOk(s) && (Blocked(s, t) <==> !s.records[t].commitLock.Go?)
  {
    hide Inv, QueueOk;
    Bounds(s, t);
    Whereabouts(s, t);
    FrontAndSelf(s, t);
  }

  lemma NextReads(s: Lock, t: nat)
    requires Inv(s) && t < |s.phases| && InCommit(s.phases[t])
    ensures Wellformed(s) && QueueOk(s) && (s.records[t].next.Some? ==> s.records[t].next.value < |s.phases|)
    ensures s.phases[t].AwaitingNext? ==> (Blocked(s, t) <==> s.records[t].next.None?)
    ensures if SuccessorLinked(s) then s.records[t].next == Some(s.order[s.front + 1]) else s.records[t].next.None?
    ensures s.tail == Some(t) <==> s.front + 1 == |s.order|
  {
    hide Inv, QueueOk;
    Bounds(s, t);
    Whereabouts(s, t);
    if s.front + 1 < |s.order| {
      At(s, s.front + 1);
    }
  }

  lemma DrainingReads(s: Lock, t: nat)
    requires Inv(s) && t < |s.phases| && s.phases[t].Draining?
    ensures Wellformed(s) && QueueOk(s) && (Blocked(s, t) <==> !s.records[t].reserveLock.Consumed?)
  {
    hide Inv, QueueOk;
    Bounds(s, t);
    FrontAndSelf(s, t);
    if s.front < |s.order| {
      At(s, s.front);
      Around(s, s.front);
    }
  }

  /** A step goes where the line says.  It changes nothing while the caller waits, and otherwise brings
      its call nearer to its end. */
  lemma StepAdvances(s: Lock, t: nat)
    requires Inv(s) && Enabled(s, Step(t))
    ensures Wellformed(s) && QueueOk(s) && Apply(s, Step(t)).phases == s.phases[t := Follows(s, t)]
    ensures Blocked(s, t) ==> Apply(s, Step(t)) == s
    ensures !Blocked(s, t) ==>
      |Apply(s, Step(t)).phases| == |s.phases| && Ahead(Apply(s, Step(t)).phases[t]) < Ahead(s.phases[t])
  {
    hide Inv, QueueOk;
    Bounds(s, t);
    var p := s.phases[t];
    if p.Awaiting? {
      AwaitingReads(s, t);
      hide Blocked;
    } else if p.Reserved? {
      ReservedReads(s, t);
      hide Blocked;
    } else if InCommit(p) {
      NextReads(s, t);
    } else if p.Draining? {
      DrainingReads(s, t);
      hide Blocked;
    }
  }

  /** Whenever a call is in progress, some caller can take a step that brings it nearer to its end. */
  lemma NoDeadlock(s: Lock, t: nat) returns (u: nat)
    requires Inv(s) && t < |s.phases| && !s.phases[t].Idle?
    ensures Wellformed(s) && QueueOk(s) && u < |s.phases| && !s.phases[u].Idle? && !Blocked(s, u)
    ensures Enabled(s, if s.phases[u].Ready? then SwapIn(u) else Step(u))
  {
    hide Inv, QueueOk;
    Bounds(s, t);
    u := t;
    if s.front < |s.order| {
      u := s.order[s.front];
      At(s, s.front);
      FrontAndSelf(s, u);
      if s.front + 1 < |s.order| {
        At(s, s.front + 1);
      }
      if Blocked(s, u) {
        u := s.order[s.front + 1];
      }
    } else if Queued(s.phases[t]) {
      Whereabouts(s, t);
    }
  }
}
