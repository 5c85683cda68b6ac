/** One side of the lock-based ring: its reserve/commit lock together with what each caller has done.

    A caller tries to reserve once, in its reserve section; it is granted the next reservation or
    refused.  Granted, it stores its index in its commit section; refused, it cancels.  `tries` is
    history: the outcomes in the order of the attempts, each with the number of reservations made
    before. */
module RingLock {
  import opened Common
  import opened TwoPhaseLock
  import opened EarlyCancel
  import TwoPhaseProgress

  datatype Job =
    | Fresh             // has not tried yet
    | Granted(k: nat)   // holds reservation `k`
    | Refused
    | Stored            // has stored its index

  datatype Try = Try(before: nat, granted: bool)

  datatype Side = Side(lock: Lock, jobs: seq<Job>, tries: seq<Try>)

  datatype Move =
    | Enter(b: Access)                   // an access to the lock
    | Attempt(tid: nat, granted: bool)
    | Store(tid: nat)

  function Empty(threads: nat): Side {
    Side(TwoPhaseLock.Init(threads), seq(threads, _ => Fresh), [])
  }

  predicate Sized(s: Side) { Wellformed(s.lock) && |s.jobs| == |s.lock.phases| }

  /** A caller leaves its reserve section once it has tried, cancels only if it was refused, and leaves
      its commit section only after its store. */
  predicate Allowed(s: Side, b: Access)
    requires Sized(s) && Possible(s.lock, b)
  {
    match b
    case SkipWait(t) => s.jobs[t].Refused?
    case Regular(a) =>
      && !a.TrySwapIn?
      && (a.Step? && s.lock.phases[a.tid].Reserving? ==> !s.jobs[a.tid].Fresh?)
      && (a.Step? && s.lock.phases[a.tid].Committing? ==> !s.jobs[a.tid].Granted?)
  }

  predicate CanMove(s: Side, m: Move)
    requires Sized(s)
  {
    match m
    case Enter(b) => Possible(s.lock, b) && Allowed(s, b)
    case Attempt(t, _) => t < |s.jobs| && s.lock.phases[t].Reserving? && s.jobs[t].Fresh?
    case Store(t) => t < |s.jobs| && s.lock.phases[t].Committing? && s.jobs[t].Granted?
  }

  /** `made` is the number of reservations made so far. */
  function Moved(s: Side, m: Move, made: nat): Side
    requires Sized(s) && CanMove(s, m)
  {
    match m
    case Enter(b) =>
      s.(lock := Do(s.lock, b), jobs := if b.Regular? && b.a.Begin? then s.jobs[b.a.tid := Fresh] else s.jobs)
    case Attempt(t, granted) =>
      s.(jobs := s.jobs[t := if granted then Granted(made) else Refused], tries := s.tries + [Try(made, granted)])
    case Store(t) => s.(jobs := s.jobs[t := Stored])
  }

  // ---------------------------------------------------------------------------------------------
  // The invariant
  // ---------------------------------------------------------------------------------------------

  /** The number of reservations made up to and including attempt `i`. */
  function After(tries: seq<Try>, i: nat): nat
    requires i < |tries|
  {
    tries[i].before + if tries[i].granted then 1 else 0
  }

  /** The number of reservations made before attempt `i`. */
  function Before(tries: seq<Try>, i: nat, made: nat): nat {
    if i < |tries| then tries[i].before else made
  }

  ghost predicate Counted(tries: seq<Try>, i: nat, made: nat)
    requires i < |tries|
  {
    After(tries, i) == Before(tries, i + 1, made)
  }

  predicate Leaves(p: Phase) { p.Leaving? || p.AwaitingNext? || p.Handing? }

  /** What the caller at position `i` has done. */
  ghost predicate JobOk(s: Side, i: nat)
    requires i < |s.lock.order| && s.lock.order[i] < |s.lock.phases| == |s.jobs|
  {
    var j, p := s.jobs[s.lock.order[i]], PhaseAt(s.lock, i);
    if i >= s.lock.entered then j.Fresh?
    else if i >= |s.tries| then j.Fresh? && p.Reserving?
    else
      && (if s.tries[i].granted then j == Granted(s.tries[i].before) || (j.Stored? && i == s.lock.front) else j.Refused?)
      && (Leaves(p) ==> !j.Granted?)
  }

  /** `done` of the `made` reservations have been committed: those of the callers before the front,
      and that of the front once it has stored its index. */
  ghost predicate SideOk(s: Side, made: nat, done: nat) {
    && Inv(s.lock) && Sized(s)
    && s.lock.front <= |s.tries| <= s.lock.entered <= |s.tries| + 1
    && (|s.tries| == 0 ==> made == 0)
    && (forall i :: 0 <= i < |s.tries| ==> Counted(s.tries, i, made))
    && (forall i :: s.lock.front <= i < |s.lock.order| ==> s.lock.order[i] < |s.jobs| && JobOk(s, i))
    && (forall t :: 0 <= t < |s.jobs| && s.lock.phases[t].Ready? ==> s.jobs[t].Fresh?)
    && done == Before(s.tries, s.lock.front, made) + if FrontStored(s) then 1 else 0
  }

  predicate FrontStored(s: Side) {
    s.lock.front < |s.tries| && s.lock.front < |s.lock.order| && s.lock.order[s.lock.front] < |s.jobs| &&
    s.jobs[s.lock.order[s.lock.front]].Stored?
  }

  lemma EmptyOk(threads: nat)
    ensures SideOk(Empty(threads), 0, 0)
  {
    InitInv(threads);
  }

  lemma Parts(s: Side, made: nat, done: nat)
    requires SideOk(s, made, done)
    ensures Inv(s.lock) && Sized(s) && s.lock.front <= |s.tries| <= s.lock.entered <= |s.tries| + 1
    ensures |s.tries| == 0 ==> made == 0
    ensures done == Before(s.tries, s.lock.front, made) + if FrontStored(s) then 1 else 0
  {
  }

  lemma JobAt(s: Side, made: nat, done: nat, i: nat)
    requires SideOk(s, made, done) && s.lock.front <= i < |s.lock.order|
    ensures s.lock.order[i] < |s.lock.phases| == |s.jobs| && JobOk(s, i)
  {
  }

  /** Where a caller stands that is in its reserve or its commit section. */
  lemma CallerAt(s: Side, made: nat, done: nat, t: nat)
    requires SideOk(s, made, done) && t < |s.lock.phases| && Entered(s.lock.phases[t])
    ensures Sized(s) && s.lock.front <= s.lock.place[t] < s.lock.entered <= |s.lock.order|
    ensures s.lock.order[s.lock.place[t]] == t && t < |s.jobs| && JobOk(s, s.lock.place[t])
    ensures InCommit(s.lock.phases[t]) ==> s.lock.place[t] == s.lock.front < |s.tries|
  {
    hide SideOk, Inv, QueueOk, FlagOk, NextOk;
    Parts(s, made, done);
    Bounds(s.lock, t);
    Whereabouts(s.lock, t);
    JobAt(s, made, done, s.lock.place[t]);
  }

  /** A caller that is about to store its index holds the oldest reservation. */
  lemma StoresOldest(s: Side, made: nat, done: nat, t: nat)
    requires SideOk(s, made, done) && Sized(s) && CanMove(s, Store(t))
    ensures s.jobs[t].k == done
  {
    hide SideOk, Inv, QueueOk;
    Parts(s, made, done);
    CallerAt(s, made, done, t);
  }

  // ---------------------------------------------------------------------------------------------
  // Every move keeps it
  // ---------------------------------------------------------------------------------------------

  /** No two positions belong to one caller. */
  lemma Elsewhere(s: Side, made: nat, done: nat, t: nat, i: nat)
    requires SideOk(s, made, done) && t < |s.lock.phases| && s.lock.front <= i < |s.lock.order|
    ensures Sized(s) && s.lock.order[i] == t ==> Queued(s.lock.phases[t]) && s.lock.place[t] == i
  {
    hide SideOk, Inv, QueueOk;
    Parts(s, made, done);
    At(s.lock, i);
  }

  lemma AttemptOk(s: Side, made: nat, done: nat, t: nat, granted: bool)
    requires SideOk(s, made, done) && Sized(s) && CanMove(s, Attempt(t, granted))
    ensures SideOk(Moved(s, Attempt(t, granted), made), made + if granted then 1 else 0, done)
  {
    var s', made' := Moved(s, Attempt(t, granted), made), made + if granted then 1 else 0;
    hide Inv, QueueOk;
    CallerAt(s, made, done, t);
    forall i | 0 <= i < |s'.tries|
      ensures Counted(s'.tries, i, made')
    {
      if i < |s.tries| {
        assert Counted(s.tries, i, made);
      }
    }
    forall i | s'.lock.front <= i < |s'.lock.order|
      ensures s'.lock.order[i] < |s'.jobs| && JobOk(s', i)
    {
      JobAt(s, made, done, i);
      Elsewhere(s, made, done, t, i);
    }
  }

  lemma StoreOk(s: Side, made: nat, done: nat, t: nat)
    requires SideOk(s, made, done) && Sized(s) && CanMove(s, Store(t))
    ensures SideOk(Moved(s, Store(t), made), made, done + 1)
  {
    var s' := Moved(s, Store(t), made);
    hide Inv, QueueOk;
    CallerAt(s, made, done, t);
    forall i | s'.lock.front <= i < |s'.lock.order|
      ensures s'.lock.order[i] < |s'.jobs| && JobOk(s', i)
    {
      JobAt(s, made, done, i);
      Elsewhere(s, made, done, t, i);
    }
  }

  /** Which phases a step leads to. */
  lemma PhaseEffect(lock: Lock, t: nat)
    requires Wellformed(lock) && t < |lock.phases| && !lock.phases[t].Idle? && !lock.phases[t].Ready?
    ensures var p, p' := lock.phases[t], StepOf(lock, t).phases[t];
      && !p'.Ready?
      && (Leaves(p') ==> Leaves(p) || p.Committing?)
      && (p'.Reserving? <==> p.Taking? || p.First?)
      && (p.Handing? || p.Leaving? ==> Leaves(p))
  {
  }

  /** A step that goes into a reserve section: whoever entered before has left it. */
  lemma Entering(s: Side, made: nat, done: nat, t: nat)
    requires SideOk(s, made, done) && t < |s.lock.phases| && (s.lock.phases[t].Taking? || s.lock.phases[t].First?)
    ensures s.lock.place[t] == s.lock.entered == |s.tries| < |s.lock.order| && s.lock.order[s.lock.entered] == t
  {
    hide SideOk, Inv, QueueOk, FlagOk, NextOk;
    Parts(s, made, done);
    Bounds(s.lock, t);
    Whereabouts(s.lock, t);
    var e := s.lock.entered;
    if s.lock.front < e {
      At(s.lock, e);
      At(s.lock, e - 1);
      JobAt(s, made, done, e - 1);
    }
  }

  /** The numbers a step leaves: who is in the line, and how far it has got. */
  lemma LineOfStep(s: Side, s': Side, made: nat, done: nat, t: nat)
    requires SideOk(s, made, done) && t < |s.lock.phases| && !s.lock.phases[t].Idle? && !s.lock.phases[t].Ready?
    requires s.lock.phases[t].Reserving? ==> t < |s.jobs| && !s.jobs[t].Fresh?
    requires s.lock.phases[t].Committing? ==> t < |s.jobs| && !s.jobs[t].Granted?
    requires s' == s.(lock := StepOf(s.lock, t))
    ensures |s'.lock.phases| == |s.lock.phases| == |s.jobs| && s'.lock.phases == s.lock.phases[t := s'.lock.phases[t]]
    ensures s'.lock.order == s.lock.order && s.lock.front <= s'.lock.front <= |s.tries| <= s'.lock.entered <= |s.tries| + 1
    ensures s'.lock.entered <= |s.lock.order| && s.lock.entered <= s'.lock.entered
    ensures s'.lock.front > s.lock.front ==>
      && s'.lock.front == s.lock.front + 1 && s.lock.front < |s.lock.order| && s.lock.order[s.lock.front] == t
      && !s.jobs[t].Fresh? && !s.jobs[t].Granted?
    ensures s'.lock.entered > s.lock.entered ==>
      && s'.lock.entered == s.lock.entered + 1 == |s.tries| + 1 && s.lock.order[s.lock.entered] == t
      && s'.lock.phases[t].Reserving?
  {
    hide SideOk, Inv, QueueOk, FlagOk, NextOk, StepOf;
    Parts(s, made, done);
    Bounds(s.lock, t);
    QueueEffect(s.lock, s'.lock, t);
    PhaseEffect(s.lock, t);
    if s.lock.phases[t].Taking? || s.lock.phases[t].First? {
      Entering(s, made, done, t);
    } else if Entered(s.lock.phases[t]) {
      CallerAt(s, made, done, t);
    }
  }

  lemma JobOfStep(s: Side, s': Side, made: nat, done: nat, t: nat, i: nat)
    requires SideOk(s, made, done) && t < |s.lock.phases| && !s.lock.phases[t].Idle? && !s.lock.phases[t].Ready?
    requires s.lock.phases[t].Reserving? ==> t < |s.jobs| && !s.jobs[t].Fresh?
    requires s.lock.phases[t].Committing? ==> t < |s.jobs| && !s.jobs[t].Granted?
    requires s' == s.(lock := StepOf(s.lock, t)) && s'.lock.front <= i < |s'.lock.order|
    ensures s'.lock.order[i] < |s'.lock.phases| == |s'.jobs| && JobOk(s', i)
  {
    hide SideOk, Inv, QueueOk, FlagOk, NextOk, StepOf;
    Parts(s, made, done);
    LineOfStep(s, s', made, done, t);
    PhaseEffect(s.lock, t);
    JobAt(s, made, done, i);
    Elsewhere(s, made, done, t, i);
    if s'.lock.front > s.lock.front {
      JobAt(s, made, done, s.lock.front);
      Elsewhere(s, made, done, t, s.lock.front);
    }
  }

  lemma ReadyOfStep(s: Side, s': Side, made: nat, done: nat, t: nat)
    requires SideOk(s, made, done) && t < |s.lock.phases| && !s.lock.phases[t].Idle? && !s.lock.phases[t].Ready?
    requires s' == s.(lock := StepOf(s.lock, t)) && |s'.lock.phases| == |s.lock.phases|
    requires s'.lock.phases == s.lock.phases[t := s'.lock.phases[t]] && !s'.lock.phases[t].Ready?
    ensures forall u :: 0 <= u < |s'.jobs| && s'.lock.phases[u].Ready? ==> s'.jobs[u].Fresh?
  {
    hide Inv, QueueOk, StepOf, JobOk, Counted;
  }

  lemma StepOk(s: Side, made: nat, done: nat, t: nat)
    requires SideOk(s, made, done) && t < |s.lock.phases| && !s.lock.phases[t].Idle? && !s.lock.phases[t].Ready?
    requires s.lock.phases[t].Reserving? ==> t < |s.jobs| && !s.jobs[t].Fresh?
    requires s.lock.phases[t].Committing? ==> t < |s.jobs| && !s.jobs[t].Granted?
    ensures SideOk(s.(lock := StepOf(s.lock, t)), made, done)
  {
    hide SideOk, Inv, QueueOk, StepOf, JobOk, Counted, Before, FrontStored;
    Parts(s, made, done);
    var s' := s.(lock := StepOf(s.lock, t));
    StepOfInv(s.lock, t);
    LineOfStep(s, s', made, done, t);
    Bounds(s'.lock, t);
    PhaseEffect(s.lock, t);
    ReadyOfStep(s, s', made, done, t);
    forall i | s'.lock.front <= i < |s'.lock.order|
      ensures s'.lock.order[i] < |s'.jobs| && JobOk(s', i)
    {
      JobOfStep(s, s', made, done, t, i);
    }
    DoneOfStep(s, s', made, done, t);
    AllCounted(s, made, done);
    Assemble(s', made, done);
  }

  lemma DoneOfStep(s: Side, s': Side, made: nat, done: nat, t: nat)
    requires SideOk(s, made, done) && t < |s.lock.phases| && !s.lock.phases[t].Idle? && !s.lock.phases[t].Ready?
    requires s.lock.phases[t].Reserving? ==> t < |s.jobs| && !s.jobs[t].Fresh?
    requires s.lock.phases[t].Committing? ==> t < |s.jobs| && !s.jobs[t].Granted?
    requires s' == s.(lock := StepOf(s.lock, t))
    ensures done == Before(s'.tries, s'.lock.front, made) + if FrontStored(s') then 1 else 0
  {
    hide SideOk, Inv, QueueOk, FlagOk, NextOk, StepOf;
    Parts(s, made, done);
    LineOfStep(s, s', made, done, t);
    if s'.lock.front > s.lock.front {
      JobAt(s, made, done, s.lock.front);
      CountedAt(s, made, done, s.lock.front);
      if s'.lock.front < |s.lock.order| {
        JobAt(s, made, done, s'.lock.front);
      }
    }
  }

  lemma CountedAt(s: Side, made: nat, done: nat, i: nat)
    requires SideOk(s, made, done) && i < |s.tries|
    ensures Counted(s.tries, i, made)
  {
  }

  lemma OutsideEffect(lock: Lock, a: Action)
    requires Wellformed(lock) && Enabled(lock, a) && (a.Begin? || a.SwapIn?)
    ensures var lock', t := Apply(lock, a), a.tid;
      && lock'.phases == lock.phases[t := lock'.phases[t]] && |lock'.phases| == |lock.phases|
      && lock'.front == lock.front && lock'.entered == lock.entered
      && lock'.order == (if a.Begin? then lock.order else lock.order + [t])
      && (if a.Begin? then lock'.phases[t].Ready? else lock.phases[t].Ready? && !lock'.phases[t].Ready?)
      && t < |lock.phases| && !Queued(lock.phases[t])
  {
  }

  lemma ReadyAt(s: Side, made: nat, done: nat, t: nat)
    requires SideOk(s, made, done) && t < |s.lock.phases|
    ensures t < |s.jobs| && (s.lock.phases[t].Ready? ==> s.jobs[t].Fresh?)
  {
  }

  lemma JobOutside(s: Side, s': Side, made: nat, done: nat, a: Action, i: nat)
    requires SideOk(s, made, done) && Sized(s) && CanMove(s, Enter(Regular(a))) && (a.Begin? || a.SwapIn?)
    requires s' == Moved(s, Enter(Regular(a)), made) && s'.lock.front <= i < |s'.lock.order|
    ensures s'.lock.order[i] < |s'.lock.phases| == |s'.jobs| && JobOk(s', i)
  {
    hide SideOk, Inv, QueueOk, Apply, Enabled;
    Parts(s, made, done);
    OutsideEffect(s.lock, a);
    Bounds(s.lock, a.tid);
    ReadyAt(s, made, done, a.tid);
    if i < |s.lock.order| {
      JobAt(s, made, done, i);
      Elsewhere(s, made, done, a.tid, i);
    }
  }

  lemma ReadyOutside(s: Side, s': Side, made: nat, done: nat, a: Action)
    requires SideOk(s, made, done) && Sized(s) && CanMove(s, Enter(Regular(a))) && (a.Begin? || a.SwapIn?)
    requires s' == Moved(s, Enter(Regular(a)), made)
    ensures |s'.jobs| == |s'.lock.phases| == |s.jobs| && s'.tries == s.tries
    ensures s'.lock.front == s.lock.front && s'.lock.entered == s.lock.entered
    ensures forall t :: 0 <= t < |s'.jobs| && s'.lock.phases[t].Ready? ==> s'.jobs[t].Fresh?
  {
    hide Inv, QueueOk, Apply, Enabled, JobOk, Counted;
    OutsideEffect(s.lock, a);
  }

  lemma BeginOrSwapOk(s: Side, made: nat, done: nat, a: Action)
    requires SideOk(s, made, done) && Sized(s) && CanMove(s, Enter(Regular(a))) && (a.Begin? || a.SwapIn?)
    ensures SideOk(Moved(s, Enter(Regular(a)), made), made, done)
  {
    hide SideOk, Inv, QueueOk, Apply, Enabled, JobOk, Counted, Before, FrontStored, Wellformed;
    var s' := Moved(s, Enter(Regular(a)), made);
    Parts(s, made, done);
    OutsideEffect(s.lock, a);
    ApplyInv(s.lock, a);
    Bounds(s'.lock, a.tid);
    ReadyOutside(s, s', made, done, a);
    forall i | s'.lock.front <= i < |s'.lock.order|
      ensures s'.lock.order[i] < |s'.jobs| && JobOk(s', i)
    {
      JobOutside(s, s', made, done, a, i);
    }
    DoneOutside(s, s', made, done, a);
    AllCounted(s, made, done);
    Assemble(s', made, done);
  }

  lemma AllCounted(s: Side, made: nat, done: nat)
    requires SideOk(s, made, done)
    ensures forall i :: 0 <= i < |s.tries| ==> Counted(s.tries, i, made)
  {
  }

  /** The account from its parts. */
  lemma Assemble(s: Side, made: nat, done: nat)
    requires Inv(s.lock) && Sized(s)
    requires s.lock.front <= |s.tries| <= s.lock.entered <= |s.tries| + 1
    requires |s.tries| == 0 ==> made == 0
    requires forall i :: 0 <= i < |s.tries| ==> Counted(s.tries, i, made)
    requires forall i :: s.lock.front <= i < |s.lock.order| ==> s.lock.order[i] < |s.jobs| && JobOk(s, i)
    requires forall t :: 0 <= t < |s.jobs| && s.lock.phases[t].Ready? ==> s.jobs[t].Fresh?
    requires done == Before(s.tries, s.lock.front, made) + if FrontStored(s) then 1 else 0
    ensures SideOk(s, made, done)
  {
    hide Inv, Counted, JobOk, Before, FrontStored, Wellformed;
  }

  lemma DoneOutside(s: Side, s': Side, made: nat, done: nat, a: Action)
    requires SideOk(s, made, done) && Sized(s) && CanMove(s, Enter(Regular(a))) && (a.Begin? || a.SwapIn?)
    requires s' == Moved(s, Enter(Regular(a)), made)
    ensures done == Before(s'.tries, s'.lock.front, made) + if FrontStored(s') then 1 else 0
  {
    hide SideOk, Inv, QueueOk, Apply, Enabled;
    Parts(s, made, done);
    OutsideEffect(s.lock, a);
    Bounds(s.lock, a.tid);
    if s.lock.front < |s.lock.order| {
      JobAt(s, made, done, s.lock.front);
      Elsewhere(s, made, done, a.tid, s.lock.front);
    }
  }

  /** An access to the lock keeps the account, as long as nobody but the oldest caller cancels without
      waiting. */
  lemma EnterOk(s: Side, made: nat, done: nat, b: Access)
    requires SideOk(s, made, done) && Sized(s) && CanMove(s, Enter(b))
    requires b.SkipWait? ==> s.lock.records[b.tid].commitLock.Go?
    ensures SideOk(Moved(s, Enter(b), made), made, done)
  {
    hide SideOk, Inv, QueueOk;
    Parts(s, made, done);
    match b
    case SkipWait(t) =>
      StepOk(s, made, done, t);
      assert Do(s.lock, b) == StepOf(s.lock, t);
    case Regular(a) =>
      if a.Step? {
        StepOk(s, made, done, a.tid);
      } else {
        BeginOrSwapOk(s, made, done, a);
      }
  }

  /** Whenever a call is in progress, some caller `u` can go on: it may try to reserve, it may store its
      index, or its next access to the lock is not a wait. */
  lemma NeverStuck(s: Side, made: nat, done: nat, t: nat) returns (u: nat)
    requires SideOk(s, made, done) && t < |s.lock.phases| && !s.lock.phases[t].Idle?
    ensures Sized(s) && u < |s.lock.phases|
    ensures
      || CanMove(s, Store(u)) || (forall granted :: CanMove(s, Attempt(u, granted)))
      || (CanMove(s, Enter(Regular(if s.lock.phases[u].Ready? then SwapIn(u) else Step(u)))) &&
          QueueOk(s.lock) && !TwoPhaseProgress.Blocked(s.lock, u))
  {
    hide SideOk, Inv, QueueOk;
    Parts(s, made, done);
    u := TwoPhaseProgress.NoDeadlock(s.lock, t);
  }
}
