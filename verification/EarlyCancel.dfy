/** The cancel of the fixed-size blocking queue: it leaves the reserve section and runs
    releaseCommitLock at once, without waiting for its turn to commit, as the cancel of the resizable
    queue does.  The machine is the one of TwoPhaseLock with this one step added. */
module EarlyCancel {
  import opened Common
  import opened TwoPhaseLock

  datatype Access =
    | Regular(a: Action)
    | SkipWait(tid: nat)   // a cancel: on to releaseCommitLock, whatever CommitLock says

  predicate Possible(s: Lock, b: Access)
    requires Wellformed(s)
  {
    match b
    case Regular(a) => Enabled(s, a)
    case SkipWait(t) => t < |s.phases| && s.phases[t].Reserved?
  }

  function Do(s: Lock, b: Access): Lock
    requires Wellformed(s) && Possible(s, b)
  {
    match b
    case Regular(a) => Apply(s, a)
    case SkipWait(t) => Goto(s, t, Committing).(commitLog := s.commitLog + [t])
  }

  /** A cancel keeps the lock sound if and only if the canceller has its commit lock already, that
      is, if and only if it is the oldest caller. */
  lemma SkipWaitExact(s: Lock, t: nat)
    requires Inv(s) && Possible(s, SkipWait(t))
    ensures Inv(Do(s, SkipWait(t))) <==> s.records[t].commitLock.Go?
    ensures s.records[t].commitLock.Go? <==> s.place[t] == s.front
  {
    hide Inv, QueueOk, FlagOk, NextOk;
    Bounds(s, t);
    Whereabouts(s, t);
    FrontAndSelf(s, t);
    if s.records[t].commitLock.Go? {
      StepOfInv(s, t);
      assert Do(s, SkipWait(t)) == StepOf(s, t);
    } else {
      CommitsFirst(Do(s, SkipWait(t)), t);
    }
  }

  /** Whoever is in a commit section is at the front. */
  lemma CommitsFirst(s: Lock, t: nat)
    requires Wellformed(s) && t < |s.phases| && InCommit(s.phases[t])
    ensures Inv(s) ==> s.place[t] == s.front
  {
    hide Inv, QueueOk, FlagOk, NextOk;
    if Inv(s) {
      Whereabouts(s, t);
    }
  }

  // ---------------------------------------------------------------------------------------------
  // A run in which the order is lost
  // ---------------------------------------------------------------------------------------------

  ghost predicate CanDo(s: Lock, run: seq<Access>)
    decreases |run|, 0
  {
    run == [] ||
    (CanDo(s, run[..|run| - 1]) && var t := After(s, run[..|run| - 1]); Wellformed(t) && Possible(t, run[|run| - 1]))
  }

  ghost function After(s: Lock, run: seq<Access>): Lock
    requires CanDo(s, run)
    decreases |run|, 1
  {
    if run == [] then s else Do(After(s, run[..|run| - 1]), run[|run| - 1])
  }

  ghost predicate Reaches(s: Lock, t: Lock) {
    exists run :: CanDo(s, run) && After(s, run) == t
  }

  lemma Next(s: Lock, t: Lock, b: Access)
    requires Reaches(s, t) && Wellformed(t) && Possible(t, b)
    ensures Reaches(s, Do(t, b))
  {
    hide Wellformed, Possible, Do;
    var run :| CanDo(s, run) && After(s, run) == t;
    assert (run + [b])[..|run|] == run;
    assert CanDo(s, run + [b]) && After(s, run + [b]) == Do(t, b);
  }

  lemma Start(s: Lock)
    ensures Reaches(s, s)
  {
    assert CanDo(s, []) && After(s, []) == s;
  }

  /** Thread 0 has reserved and is filling its window. */
  function OneReserved(): Lock {
    Lock(Some(0), [Record(Go, Go, None), Record(Wait, Wait, None), Record(Wait, Wait, None)], [Reserved, Idle, Idle],
         [0], [0, 0, 0], 0, 1, [0], [])
  }

  /** Thread 1 waits for thread 0's reserve lock. */
  function OneWaiting(): Lock {
    Lock(Some(1), [Record(Go, Go, Some(1)), Record(Wait, Wait, None), Record(Wait, Wait, None)],
         [Reserved, Awaiting(0), Idle], [0, 1], [0, 1, 0], 0, 1, [0], [])
  }

  /** Thread 1 came second, found no room and has left its reserve section. */
  function TwoReserved(): Lock {
    Lock(Some(1), [Record(Consumed, Go, Some(1)), Record(Go, Wait, None), Record(Wait, Wait, None)],
         [Reserved, Reserved, Idle], [0, 1], [0, 1, 0], 0, 2, [0, 1], [])
  }

  /** It cancelled early and emptied the lock word, although thread 0 has yet to commit. */
  function Cancelled(): Lock {
    TwoReserved().(tail := None, phases := [Reserved, Idle, Idle], front := 1, commitLog := [1])
  }

  lemma ReachesOneReserved()
    ensures Reaches(Init(3), OneReserved())
  {
    hide Reaches;
    var s0 := Init(3);
    Start(s0);
    Next(s0, s0, Regular(Begin(0)));
    var s1 := Do(s0, Regular(Begin(0)));
    Next(s0, s1, Regular(SwapIn(0)));
    var s2 := Do(s1, Regular(SwapIn(0)));
    Next(s0, s2, Regular(Step(0)));
    var s3 := Do(s2, Regular(Step(0)));
    Next(s0, s3, Regular(Step(0)));
    assert Do(s3, Regular(Step(0))) == OneReserved();
  }

  lemma ReachesTwoReserved()
    ensures Reaches(Init(3), TwoReserved())
  {
    hide Reaches;
    ReachesOneWaiting();
    var s0, s1 := Init(3), OneWaiting();
    Next(s0, s1, Regular(Step(1)));
    var s2 := Do(s1, Regular(Step(1)));
    Next(s0, s2, Regular(Step(1)));
    var s3 := Do(s2, Regular(Step(1)));
    Next(s0, s3, Regular(Step(1)));
    assert Do(s3, Regular(Step(1))) == TwoReserved();
  }

  lemma ReachesOneWaiting()
    ensures Reaches(Init(3), OneWaiting())
  {
    hide Reaches;
    ReachesOneReserved();
    var s0, s1 := Init(3), OneReserved();
    Next(s0, s1, Regular(Begin(1)));
    var s2 := Do(s1, Regular(Begin(1)));
    Next(s0, s2, Regular(SwapIn(1)));
    var s3 := Do(s2, Regular(SwapIn(1)));
    Next(s0, s3, Regular(Step(1)));
    assert Do(s3, Regular(Step(1))) == OneWaiting();
  }

  lemma ReachesCancelled()
    ensures Reaches(Init(3), Cancelled())
  {
    hide Reaches;
    ReachesTwoReserved();
    var s0, s1 := Init(3), TwoReserved();
    Next(s0, s1, SkipWait(1));
    var s2 := Do(s1, SkipWait(1));
    Next(s0, s2, Regular(Step(1)));
    var s3 := Do(s2, Regular(Step(1)));
    Next(s0, s3, Regular(Step(1)));
    assert Do(s3, Regular(Step(1))) == Cancelled();
  }

  /** Thread 2 found the lock word empty, so it has its commit lock too. */
  function BothMayCommit(): Lock {
    Cancelled().(tail := Some(2), phases := [Reserved, Idle, Reserved], entered := 3,
                 records := [Record(Consumed, Go, Some(1)), Record(Go, Wait, None), Record(Go, Go, None)],
                 order := [0, 1, 2], place := [0, 1, 2], reserveLog := [0, 1, 2])
  }

  lemma ReachesBothMayCommit()
    ensures Reaches(Init(3), BothMayCommit())
  {
    hide Reaches;
    ReachesCancelled();
    var s0, s1 := Init(3), Cancelled();
    Next(s0, s1, Regular(Begin(2)));
    var s2 := Do(s1, Regular(Begin(2)));
    Next(s0, s2, Regular(SwapIn(2)));
    var s3 := Do(s2, Regular(SwapIn(2)));
    Next(s0, s3, Regular(Step(2)));
    var s4 := Do(s3, Regular(Step(2)));
    Next(s0, s4, Regular(Step(2)));
    assert Do(s4, Regular(Step(2))) == BothMayCommit();
  }

  /** Thread 2 is in its commit section while thread 0, which reserved before it, has not committed. */
  lemma EarlyCancelLosesOrder() returns (t: Lock)
    ensures Reaches(Init(3), t) && t.reserveLog == [0, 1, 2] && t.commitLog == [1, 2] && |t.phases| == 3
    ensures t.phases[2].Committing? && t.phases[0].Reserved?
    ensures !(t.commitLog <= t.reserveLog)
  {
    hide Reaches;
    ReachesBothMayCommit();
    Next(Init(3), BothMayCommit(), Regular(Step(2)));
    t := Do(BothMayCommit(), Regular(Step(2)));
    assert t.commitLog[0] != t.reserveLog[0];
  }
}
