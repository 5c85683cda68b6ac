/** What the cancel that does not wait for its turn costs, as one run of the lock-based ring from a new
    queue of two elements (three cells) with three threads: a push that found no room cancels early and
    empties the lock word, the push after it commits before the one that reserved first, and a pop is
    served a cell that nobody has committed.  The states of the lock along the run are those of
    EarlyCancel. */
module LockedRuns {
  import opened LockedRing
  import EarlyCancel
  import T = TwoPhaseLock
  import R = RingQueue
  import L = RingLock

  ghost predicate Reaches<E(!new)>(s: Queue<E>, t: Queue<E>) {
    exists run :: CanRun(s, run) && Run(s, run) == t
  }

  lemma {:induction false} RunAppend<E>(s: Queue<E>, run: seq<Action<E>>, a: Action<E>)
    requires CanRun(s, run) && Wellformed(Run(s, run)) && Enabled(Run(s, run), a)
    ensures CanRun(s, run + [a]) && Run(s, run + [a]) == Apply(Run(s, run), a)
    decreases |run|
  {
    hide Wellformed, Enabled, Apply;
    if run == [] {
      assert [] + [a] == [a];
      assert CanRun(Apply(s, a), [a][1..]);
    } else {
      RunAppend(Apply(s, run[0]), run[1..], a);
      assert (run + [a])[1..] == run[1..] + [a];
    }
  }

  lemma Next<E(!new)>(s: Queue<E>, t: Queue<E>, a: Action<E>)
    requires Reaches(s, t) && Wellformed(t) && Enabled(t, a)
    ensures Reaches(s, Apply(t, a))
  {
    hide Wellformed, Enabled, Apply;
    var run :| CanRun(s, run) && Run(s, run) == t;
    RunAppend(s, run, a);
  }

  lemma Start<E(!new)>(s: Queue<E>)
    ensures Reaches(s, s)
  {
    assert CanRun(s, []) && Run(s, []) == s;
  }

  function Begins<E>(t: nat): Action<E> { PushLock(EarlyCancel.Regular(T.Begin(t))) }

  function SwapsIn<E>(t: nat): Action<E> { PushLock(EarlyCancel.Regular(T.SwapIn(t))) }

  function Goes<E>(t: nat): Action<E> { PushLock(EarlyCancel.Regular(T.Step(t))) }

  function NewQueue<E>(x: E): Queue<E> { Init([x, x, x], 3) }

  /** The ring after one push reservation of one cell, by thread 0, and after a second one, by thread 2. */
  function OnePush<E>(x: E): R.Ring<E> {
    R.Init([x, x, x]).(rTail := 1, rTailCount := 1, pushes := [R.Reservation(0, 0, 1, 1, 0, 1)])
  }

  function TwoPushes<E>(x: E): R.Ring<E> {
    OnePush(x).(rTail := 2, rTailCount := 2, pushes := OnePush(x).pushes + [R.Reservation(2, 1, 1, 1, 1, 2)])
  }

  function Pushers<E>(ring: R.Ring<E>, lock: T.Lock, jobs: seq<L.Job>, tries: seq<L.Try>): Queue<E> {
    Queue(ring, L.Side(lock, jobs, tries), L.Empty(3))
  }

  /** Thread 0 has reserved a cell and is filling it. */
  function OneReserved<E>(x: E): Queue<E> {
    Pushers(OnePush(x), EarlyCancel.OneReserved(), [L.Granted(0), L.Fresh, L.Fresh], [L.Try(0, true)])
  }

  function OneWaiting<E>(x: E): Queue<E> {
    Pushers(OnePush(x), EarlyCancel.OneWaiting(), [L.Granted(0), L.Fresh, L.Fresh], [L.Try(0, true)])
  }

  /** Thread 1 found no room for two. */
  function OneRefused<E>(x: E): Queue<E> {
    Pushers(OnePush(x), EarlyCancel.TwoReserved(), [L.Granted(0), L.Refused, L.Fresh], [L.Try(0, true), L.Try(1, false)])
  }

  function Cancelled<E>(x: E): Queue<E> {
    Pushers(OnePush(x), EarlyCancel.Cancelled(), [L.Granted(0), L.Refused, L.Fresh], [L.Try(0, true), L.Try(1, false)])
  }

  /** Thread 2 has reserved the second cell, and has its commit lock. */
  function BothMayCommit<E>(x: E): Queue<E> {
    Pushers(TwoPushes(x), EarlyCancel.BothMayCommit(), [L.Granted(0), L.Refused, L.Granted(1)],
            [L.Try(0, true), L.Try(1, false), L.Try(1, true)])
  }

  lemma ReachesOneReserved<E(!new)>(x: E)
    ensures Reaches(NewQueue(x), OneReserved(x))
  {
    hide Reaches;
    var s := NewQueue(x);
    Start(s);
    Next(s, s, Begins(0));
    var s1 := Apply(s, Begins(0));
    Next(s, s1, SwapsIn(0));
    var s2 := Apply(s1, SwapsIn(0));
    Next(s, s2, Goes(0));
    var s3 := Apply(s2, Goes(0));
    Next(s, s3, TryPush(0, 1));
    var s4 := Apply(s3, TryPush(0, 1));
    Next(s, s4, Goes(0));
    assert Apply(s4, Goes(0)) == OneReserved(x);
  }

  lemma ReachesOneWaiting<E(!new)>(x: E)
    ensures Reaches(NewQueue(x), OneWaiting(x))
  {
    hide Reaches;
    ReachesOneReserved(x);
    var s, s0 := NewQueue(x), OneReserved(x);
    Next(s, s0, Begins(1));
    var s1 := Apply(s0, Begins(1));
    Next(s, s1, SwapsIn(1));
    var s2 := Apply(s1, SwapsIn(1));
    Next(s, s2, Goes(1));
    assert Apply(s2, Goes(1)) == OneWaiting(x);
  }

  lemma ReachesOneRefused<E(!new)>(x: E)
    ensures Reaches(NewQueue(x), OneRefused(x))
  {
    hide Reaches;
    ReachesOneWaiting(x);
    var s, s0 := NewQueue(x), OneWaiting(x);
    Next(s, s0, Goes(1));
    var s1 := Apply(s0, Goes(1));
    Next(s, s1, Goes(1));
    var s2 := Apply(s1, Goes(1));
    Next(s, s2, TryPush(1, 2));
    var s3 := Apply(s2, TryPush(1, 2));
    Next(s, s3, Goes(1));
    assert Apply(s3, Goes(1)) == OneRefused(x);
  }

  lemma ReachesCancelled<E(!new)>(x: E)
    ensures Reaches(NewQueue(x), Cancelled(x))
  {
    hide Reaches;
    ReachesOneRefused(x);
    var s, s0 := NewQueue(x), OneRefused(x);
    Next(s, s0, PushLock(EarlyCancel.SkipWait(1)));
    var s1 := Apply(s0, PushLock(EarlyCancel.SkipWait(1)));
    Next(s, s1, Goes(1));
    var s2 := Apply(s1, Goes(1));
    Next(s, s2, Goes(1));
    assert Apply(s2, Goes(1)) == Cancelled(x);
  }

  lemma ReachesBothMayCommit<E(!new)>(x: E)
    ensures Reaches(NewQueue(x), BothMayCommit(x))
  {
    hide Reaches;
    ReachesCancelled(x);
    var s, s0 := NewQueue(x), Cancelled(x);
    Next(s, s0, Begins(2));
    var s1 := Apply(s0, Begins(2));
    Next(s, s1, SwapsIn(2));
    var s2 := Apply(s1, SwapsIn(2));
    Next(s, s2, Goes(2));
    var s3 := Apply(s2, Goes(2));
    Next(s, s3, TryPush(2, 1));
    var s4 := Apply(s3, TryPush(2, 1));
    Next(s, s4, Goes(2));
    assert Apply(s4, Goes(2)) == BothMayCommit(x);
  }

  /** Thread 2 stores Tail although thread 0, whose cell comes first, has not committed. */
  lemma EarlyCommit<E(!new)>(x: E) returns (t: Queue<E>)
    ensures Reaches(NewQueue(x), t) && Wellformed(t) && Enabled(t, StoreTail(2)) && Early(t, StoreTail(2))
    ensures t == BothMayCommit(x).(push := L.Moved(BothMayCommit(x).push, L.Enter(EarlyCancel.Regular(T.Step(2))), 2))
  {
    hide Reaches;
    ReachesBothMayCommit(x);
    Next(NewQueue(x), BothMayCommit(x), Goes(2));
    t := Apply(BothMayCommit(x), Goes(2));
  }

  /** A pop is granted the first cell although nothing has been committed. */
  lemma EarlyCancelServesUncommitted<E(!new)>(x: E) returns (t: Queue<E>)
    ensures Reaches(NewQueue(x), t) && Wellformed(t) && Enabled(t, TryPop(1, 1, 1)) && Data(t, 1)
    ensures t.ring.log == [] && |t.ring.pushes| == 2 && t.push.jobs == [L.Granted(0), L.Refused, L.Stored]
    ensures var ring := Apply(t, TryPop(1, 1, 1)).ring;
      |ring.pops| == 1 && R.Wellformed(ring) && ring.pops[0].oldIndex == ring.pushes[0].oldIndex && ring.pushDone == 0
  {
    hide Reaches;
    var s := NewQueue(x);
    var s0 := EarlyCommit(x);
    Next(s, s0, StoreTail(2));
    var s1 := Apply(s0, StoreTail(2));
    Next(s, s1, PopLock(EarlyCancel.Regular(T.Begin(1))));
    var s2 := Apply(s1, PopLock(EarlyCancel.Regular(T.Begin(1))));
    Next(s, s2, PopLock(EarlyCancel.Regular(T.SwapIn(1))));
    var s3 := Apply(s2, PopLock(EarlyCancel.Regular(T.SwapIn(1))));
    Next(s, s3, PopLock(EarlyCancel.Regular(T.Step(1))));
    t := Apply(s3, PopLock(EarlyCancel.Regular(T.Step(1))));
  }
}
