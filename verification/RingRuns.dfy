/** How a reserving compare-and-swap overruns the ring, each time as one run from a new ring of two
    cells: a thread reads both indices and sleeps while other threads go around the whole ring; its
    swap then finds the value it read, passes the test with what it read, and takes a cell that is
    not free, or an element that is not there. */
module RingRuns {
  import opened Common
  import opened RingIndex
  import opened RingQueue

  ghost predicate Reaches<E(!new)>(s: Ring<E>, t: Ring<E>) {
    exists run :: CanRun(s, run) && Run(s, run) == t
  }

  lemma {:induction false} RunAppend<E>(s: Ring<E>, run: seq<Action<E>>, a: Action<E>)
    requires CanRun(s, run) && Wellformed(Run(s, run)) && Enabled(Run(s, run), a)
    ensures CanRun(s, run + [a]) && Run(s, run + [a]) == Apply(Run(s, run), a)
    decreases |run|
  {
    hide Wellformed, Enabled, Apply;
    if run == [] {
      assert [] + [a] == [a];
      assert CanRun(Apply(s, a), [a][1..]);
    } else {
      RunAppend(Apply(s, run[0]), run[1..], a);
      assert (run + [a])[1..] == run[1..] + [a];
    }
  }

  lemma Next<E(!new)>(s: Ring<E>, t: Ring<E>, a: Action<E>)
    requires Reaches(s, t) && Wellformed(t) && Enabled(t, a)
    ensures Reaches(s, Apply(t, a))
  {
    hide Wellformed, Enabled, Apply;
    var run :| CanRun(s, run) && Run(s, run) == t;
    RunAppend(s, run, a);
  }

  lemma Start<E(!new)>(s: Ring<E>)
    ensures Reaches(s, s)
  {
    assert CanRun(s, []) && Run(s, []) == s;
  }

  /** Thread 0 reserves and commits one cell while no other push is outstanding. */
  function Pushed<E>(t: Ring<E>): Ring<E>
    requires t.rTail < |t.buff|
  {
    var next := Advance(t.n, t.rTail, 1);
    t.(tail := next, rTail := next, tailCount := t.tailCount + 1, rTailCount := t.rTailCount + 1,
       pushes := t.pushes + [Reservation(0, t.rTailCount, 1, 1, t.rTail, next)], pushDone := t.pushDone + 1,
       log := t.log + [t.buff[t.rTail]])
  }

  /** Thread 0 pops and commits one element while no other pop is outstanding. */
  function Popped<E>(t: Ring<E>): Ring<E> {
    var next := Advance(t.n, t.rHead, 1);
    t.(head := next, rHead := next, headCount := t.headCount + 1, rHeadCount := t.rHeadCount + 1,
       pops := t.pops + [Reservation(0, t.rHeadCount, 1, 1, t.rHead, next)], popDone := t.popDone + 1)
  }

  lemma PushRound<E(!new)>(s: Ring<E>, t: Ring<E>)
    requires Reaches(s, t) && Wellformed(t) && t.tail == t.rTail && t.pushDone == |t.pushes| && 0 !in t.pushSnaps
    requires HaveEnoughRoom(t.n, t.rTail, t.head, 1)
    ensures Reaches(s, Pushed(t))
  {
    hide Reaches, Advance;
    PushReserve(s, t);
    AdvanceBound(t.n, t.rTail);
    var t1 := Pushed(t).(tail := t.tail, tailCount := t.tailCount, pushDone := t.pushDone, log := t.log);
    Next(s, t1, CommitPush(|t.pushes|));
    assert Contents(t1, t1.pushes[|t.pushes|]) == [t.buff[t.rTail]];
    assert Apply(t1, CommitPush(|t.pushes|)) == Pushed(t);
  }

  lemma PushReserve<E(!new)>(s: Ring<E>, t: Ring<E>)
    requires Reaches(s, t) && Wellformed(t) && t.tail == t.rTail && t.pushDone == |t.pushes| && 0 !in t.pushSnaps
    requires HaveEnoughRoom(t.n, t.rTail, t.head, 1)
    ensures Reaches(s, Pushed(t).(tail := t.tail, tailCount := t.tailCount, pushDone := t.pushDone, log := t.log))
  {
    hide Reaches, Advance;
    Next(s, t, ReadReservedTail(0));
    var t1 := Apply(t, ReadReservedTail(0));
    Next(s, t1, ReadHead(0));
    var t2 := Apply(t1, ReadHead(0));
    Next(s, t2, SwapReservedTail(0, 1));
    var t3 := Apply(t2, SwapReservedTail(0, 1));
    assert t3.pushSnaps == t.pushSnaps;
    assert t3 == Pushed(t).(tail := t.tail, tailCount := t.tailCount, pushDone := t.pushDone, log := t.log);
  }

  lemma AdvanceBound(n: nat, i: nat)
    requires i < n
    ensures Advance(n, i, 1) < n
  {
  }

  lemma PopRound<E(!new)>(s: Ring<E>, t: Ring<E>)
    requires Reaches(s, t) && Wellformed(t) && t.head == t.rHead && t.popDone == |t.pops| && 0 !in t.popSnaps
    requires HaveEnoughData(t.n, t.rHead, t.tail, 1)
    ensures Reaches(s, Popped(t))
  {
    hide Reaches, Advance;
    PopReserve(s, t);
    AdvanceBound(t.n, t.rHead);
    var t1 := Popped(t).(head := t.head, headCount := t.headCount, popDone := t.popDone);
    Next(s, t1, CommitPop(|t.pops|));
    assert Apply(t1, CommitPop(|t.pops|)) == Popped(t);
  }

  lemma PopReserve<E(!new)>(s: Ring<E>, t: Ring<E>)
    requires Reaches(s, t) && Wellformed(t) && t.head == t.rHead && t.popDone == |t.pops| && 0 !in t.popSnaps
    requires HaveEnoughData(t.n, t.rHead, t.tail, 1)
    ensures Reaches(s, Popped(t).(head := t.head, headCount := t.headCount, popDone := t.popDone))
  {
    hide Reaches, Advance;
    Next(s, t, ReadReservedHead(0));
    var t1 := Apply(t, ReadReservedHead(0));
    Next(s, t1, ReadTail(0));
    var t2 := Apply(t1, ReadTail(0));
    Next(s, t2, SwapReservedHead(0, 1, 1));
    var t3 := Apply(t2, SwapReservedHead(0, 1, 1));
    assert t3.popSnaps == t.popSnaps;
    assert t3 == Popped(t).(head := t.head, headCount := t.headCount, popDone := t.popDone);
  }

  /** A pusher sleeps through a push, a pop and a push: its swap reserves a cell of a full ring. */
  lemma LatePushOverruns<E(!new)>(x: E) returns (t: Ring<E>)
    ensures Reaches(Init([x, x]), t) && Wellformed(t) && Enabled(t, SwapReservedTail(7, 1))
    ensures t.rTailCount == t.pushSnaps[7].reserved.count + t.n && Overruns(t, SwapReservedTail(7, 1))
    ensures Apply(t, SwapReservedTail(7, 1)).rTailCount == t.headCount + t.n
  {
    hide Reaches;
    var s := Init([x, x]);
    Start(s);
    Next(s, s, ReadReservedTail(7));
    var s1 := Apply(s, ReadReservedTail(7));
    Next(s, s1, ReadHead(7));
    var s2 := Apply(s1, ReadHead(7));
    PushRound(s, s2);
    PopRound(s, Pushed(s2));
    PushRound(s, Popped(Pushed(s2)));
    t := Pushed(Popped(Pushed(s2)));
  }

  /** One element was pushed, and a popper has read both indices. */
  function Asleep<E>(x: E): Ring<E> {
    Pushed(Init([x, x])).(popSnaps := map[7 := Snapshot(RingQueue.Reading(0, 0), Some(RingQueue.Reading(1, 1)))])
  }

  lemma ReachesAsleep<E(!new)>(x: E)
    ensures Reaches(Init([x, x]), Asleep(x))
  {
    hide Reaches;
    var s := Init([x, x]);
    Start(s);
    PushRound(s, s);
    var s0 := Pushed(s);
    Next(s, s0, ReadReservedHead(7));
    var s1 := Apply(s0, ReadReservedHead(7));
    Next(s, s1, ReadTail(7));
    assert Apply(s1, ReadTail(7)) == Asleep(x);
  }

  /** A popper reads while one element is there, and sleeps until it was popped, and another one
      pushed and popped: its swap takes an element that was never pushed. */
  lemma LatePopOverruns<E(!new)>(x: E) returns (t: Ring<E>)
    ensures Reaches(Init([x, x]), t) && Wellformed(t) && Enabled(t, SwapReservedHead(7, 1, 1))
    ensures t.rHeadCount == t.popSnaps[7].reserved.count + t.n && Overruns(t, SwapReservedHead(7, 1, 1))
    ensures Apply(t, SwapReservedHead(7, 1, 1)).rHeadCount == t.tailCount + 1
  {
    hide Reaches;
    ReachesAsleep(x);
    var s, s0 := Init([x, x]), Asleep(x);
    PopRound(s, s0);
    PushRound(s, Popped(s0));
    PopRound(s, Pushed(Popped(s0)));
    t := Popped(Pushed(Popped(s0)));
  }

  /** A pusher reads ReservedTail and, after a push and a pop, Head: it is refused on an empty ring. */
  lemma PushRefusedWithRoom<E(!new)>(x: E) returns (t: Ring<E>)
    ensures Reaches(Init([x, x]), t) && Wellformed(t) && HasBoth(t.pushSnaps, 7)
    ensures t.pushSnaps[7].opposite == Some(RingQueue.Reading(t.head, t.headCount))
    ensures !HaveEnoughRoom(t.n, t.pushSnaps[7].reserved.index, t.head, 1) && HaveEnoughRoom(t.n, t.rTail, t.head, 1)
  {
    hide Reaches;
    var s := Init([x, x]);
    Start(s);
    Next(s, s, ReadReservedTail(7));
    var s1 := Apply(s, ReadReservedTail(7));
    PushRound(s, s1);
    PopRound(s, Pushed(s1));
    Next(s, Popped(Pushed(s1)), ReadHead(7));
    t := Apply(Popped(Pushed(s1)), ReadHead(7));
  }

  /** A popper reads ReservedHead and, after a push, a pop and a push, Tail: it is refused although an
      element is there. */
  lemma PopRefusedWithData<E(!new)>(x: E) returns (t: Ring<E>)
    ensures Reaches(Init([x, x]), t) && Wellformed(t) && HasBoth(t.popSnaps, 7)
    ensures t.popSnaps[7].opposite == Some(RingQueue.Reading(t.tail, t.tailCount))
    ensures !HaveEnoughData(t.n, t.popSnaps[7].reserved.index, t.tail, 1) && HaveEnoughData(t.n, t.rHead, t.tail, 1)
  {
    hide Reaches;
    var s := Init([x, x]);
    Start(s);
    Next(s, s, ReadReservedHead(7));
    var s1 := Apply(s, ReadReservedHead(7));
    PushRound(s, s1);
    PopRound(s, Pushed(s1));
    PushRound(s, Popped(Pushed(s1)));
    var s2 := Pushed(Popped(Pushed(s1)));
    Next(s, s2, ReadTail(7));
    t := Apply(s2, ReadTail(7));
  }
}
