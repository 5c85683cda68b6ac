/** How the two breaking steps of the resizable queue come about, each as a run from a new queue.

    The first two runs push three elements, pop them, push two more, which wrap around, and then push
    three for which there is no room, so the pusher compacts.  With a maximum size of 5 the compaction
    puts Tail at 5, the new size.  With a maximum of 8 the compaction is fine, but a pop that comes in
    before NumElm is stored still reads 4 and wraps ReservedHead around there.  Either way a later
    pop is granted although nothing is left.  In the third run nothing is compacted: the queue grows
    in place between a pop's read of NumElm and its read of Tail. */
module ResizableRuns {
  import opened RingIndex
  import opened ResizableQueue

  ghost predicate Reaches<E(!new)>(s: Queue<E>, t: Queue<E>) {
    exists run :: CanRun(s, run) && Run(s, run) == t
  }

  lemma {:induction false} RunAppend<E>(s: Queue<E>, run: seq<Action<E>>, a: Action<E>)
    requires CanRun(s, run) && Wellformed(Run(s, run)) && Enabled(Run(s, run), a)
    ensures CanRun(s, run + [a]) && Run(s, run + [a]) == Apply(Run(s, run), a)
    decreases |run|
  {
    hide Wellformed, Enabled, Apply;
    if run == [] {
      assert [] + [a] == [a];
      assert CanRun(Apply(s, a), [a][1..]);
    } else {
      RunAppend(Apply(s, run[0]), run[1..], a);
      assert (run + [a])[1..] == run[1..] + [a];
    }
  }

  lemma Next<E(!new)>(s: Queue<E>, t: Queue<E>, a: Action<E>)
    requires Reaches(s, t) && Wellformed(t) && Enabled(t, a)
    ensures Reaches(s, Apply(t, a))
  {
    hide Wellformed, Enabled, Apply;
    var run :| CanRun(s, run) && Run(s, run) == t;
    RunAppend(s, run, a);
  }

  lemma Start<E(!new)>(s: Queue<E>)
    ensures Reaches(s, s)
  {
    assert CanRun(s, []) && Run(s, []) == s;
  }

  // ---------------------------------------------------------------------------------------------
  // The common beginning
  // ---------------------------------------------------------------------------------------------

  /** Four cells to begin with, at most `max`, no growth beyond what is needed. */
  function Sizes(max: nat): Config {
    Config(4, 4, max, 0, 0.0, 0.0, 0.0)
  }

  /** Cells are numbered, so that the log shows which cell each element was read from. */
  function Cells(max: nat): seq<nat> {
    seq(max, i => i)
  }

  function FirstPush(): Held { Held(0, 3, 3, (Window(0, 3), Window(0, 0)), 3) }

  function FirstPop(): Held { Held(0, 3, 3, (Window(0, 3), Window(0, 0)), 3) }

  function SecondPush(): Held { Held(3, 2, 2, (Window(3, 1), Window(0, 1)), 1) }

  /** Three elements pushed. */
  function Filled(max: nat): Queue<nat> {
    Queue(Sizes(max), 4, 4, Cells(max), 0, 0, 3, 3, Idle, Outside, 0, 0, 3, 3, [FirstPush()], 1, [], 0, [0, 1, 2])
  }

  /** And popped. */
  function Emptied(max: nat): Queue<nat> {
    Queue(Sizes(max), 4, 4, Cells(max), 3, 3, 3, 3, Idle, Outside, 3, 3, 3, 3, [FirstPush()], 1, [FirstPop()], 1, [0, 1, 2])
  }

  /** Two more pushed, in cells 3 and 0. */
  function Wrapped(max: nat): Queue<nat> {
    Queue(Sizes(max), 4, 4, Cells(max), 3, 3, 1, 1, Idle, Outside, 3, 3, 5, 5,
          [FirstPush(), SecondPush()], 2, [FirstPop()], 1, [0, 1, 2, 3, 0])
  }

  /** A push of three found no room and is about to compact. */
  function Cornered(max: nat): Queue<nat> {
    Wrapped(max).(pusher := Compacting(PushReads(3, 4, 1, 3)))
  }

  lemma ReachesFilled(max: nat)
    requires max >= 5
    ensures Reaches(Init(Sizes(max), Cells(max)), Filled(max))
  {
    hide Reaches;
    var s0 := Init(Sizes(max), Cells(max));
    Start(s0);
    Next(s0, s0, ReadForPush(3));
    var s1 := Apply(s0, ReadForPush(3));
    Next(s0, s1, ReservePush);
    var s2 := Apply(s1, ReservePush);
    assert s2.pushes == [FirstPush()];
    Next(s0, s2, CommitPush);
    assert Contents(s2, FirstPush()) == [0, 1, 2];
    assert Apply(s2, CommitPush) == Filled(max);
  }

  lemma ReachesEmptied(max: nat)
    requires max >= 5
    ensures Reaches(Init(Sizes(max), Cells(max)), Emptied(max))
  {
    hide Reaches;
    ReachesFilled(max);
    var s0, s1 := Init(Sizes(max), Cells(max)), Filled(max);
    Next(s0, s1, ReadSize(3, 3));
    Next(s0, Apply(s1, ReadSize(3, 3)), ReadForPop);
    var s2 := s1.(popper := Reading(PopReads(3, 3, 4, 0, 3)));
    Next(s0, s2, ReservePop);
    var s3 := Apply(s2, ReservePop);
    assert s3.pops == [FirstPop()];
    Next(s0, s3, LeavePop);
    var s4 := Apply(s3, LeavePop);
    Next(s0, s4, CommitPop);
    assert Apply(s4, CommitPop) == Emptied(max);
  }

  lemma ReachesWrapped(max: nat)
    requires max >= 5
    ensures Reaches(Init(Sizes(max), Cells(max)), Wrapped(max))
  {
    hide Reaches;
    ReachesEmptied(max);
    var s0, s1 := Init(Sizes(max), Cells(max)), Emptied(max);
    Next(s0, s1, ReadForPush(2));
    var s2 := Apply(s1, ReadForPush(2));
    Next(s0, s2, ReservePush);
    var s3 := Apply(s2, ReservePush);
    assert s3.pushes == [FirstPush(), SecondPush()];
    Next(s0, s3, CommitPush);
    assert Contents(s3, SecondPush()) == [3, 0];
    assert Apply(s3, CommitPush) == Wrapped(max);
  }

  lemma ReachesCornered(max: nat)
    requires max >= 5
    ensures Reaches(Init(Sizes(max), Cells(max)), Cornered(max))
  {
    hide Reaches;
    ReachesWrapped(max);
    var s0, s1 := Init(Sizes(max), Cells(max)), Wrapped(max);
    Next(s0, s1, ReadForPush(3));
    var s2 := Apply(s1, ReadForPush(3));
    Next(s0, s2, SeeWrapped);
    var s3 := Apply(s2, SeeWrapped);
    Next(s0, s3, GoCompact);
    assert Apply(s3, GoCompact) == Cornered(max);
  }

  // ---------------------------------------------------------------------------------------------
  // The compaction puts Tail at its new size
  // ---------------------------------------------------------------------------------------------

  /** After the compaction: the front cell appended behind the old end, Tail at 5. */
  function Compacted(max: nat): Queue<nat>
    requires max >= 5
  {
    Wrapped(max).(n := max, buff := Cells(max)[4 := 0], tail := 5, rTail := 5, pusher := Storing(PushReads(3, 4, 1, 3), max))
  }

  lemma Compacts(max: nat)
    requires 5 <= max <= 8
    ensures Enabled(Cornered(max), CompactQueue(max)) && Apply(Cornered(max), CompactQueue(max)) == Compacted(max)
  {
    var s := Cornered(max);
    assert CompactMove(s) == 1 && CalcGrown(s.cfg, 4, 4) == 9;
    assert Move(s.buff, 4, 0, 1) == Cells(max)[4 := 0];
  }

  lemma ReachesCompacted(max: nat)
    requires 5 <= max <= 8
    ensures Reaches(Init(Sizes(max), Cells(max)), Compacted(max))
  {
    hide Reaches;
    ReachesCornered(max);
    Compacts(max);
    Next(Init(Sizes(max), Cells(max)), Cornered(max), CompactQueue(max));
  }

  /** NumElm is stored and both elements are popped: ReservedHead wraps around to 0. */
  function Drained(): Queue<nat> {
    Compacted(5).(numElm := 5, pusher := Rechecking(PushReads(3, 5, 1, 3)), rHead := 0, rHeadCount := 5,
                  pops := [FirstPop(), Held(3, 2, 2, (Window(3, 2), Window(0, 0)), 0)])
  }

  function Stored(): Queue<nat> {
    Compacted(5).(numElm := 5, pusher := Rechecking(PushReads(3, 5, 1, 3)))
  }

  lemma ReachesStored()
    ensures Reaches(Init(Sizes(5), Cells(5)), Stored())
  {
    hide Reaches;
    ReachesCompacted(5);
    Next(Init(Sizes(5), Cells(5)), Compacted(5), StoreSize);
  }

  lemma ReachesDrained()
    ensures Reaches(Init(Sizes(5), Cells(5)), Drained())
  {
    hide Reaches;
    ReachesStored();
    var s0, s1 := Init(Sizes(5), Cells(5)), Stored();
    Next(s0, s1, ReadSize(2, 2));
    Next(s0, Apply(s1, ReadSize(2, 2)), ReadForPop);
    var s2 := s1.(popper := Reading(PopReads(2, 2, 5, 3, 5)));
    Next(s0, s2, ReservePop);
    var s3 := Drained().(popper := Reserved);
    assert Apply(s2, ReservePop).pops == s3.pops;
    assert Apply(s2, ReservePop) == s3;
    Next(s0, s3, LeavePop);
  }

  /** Pop once more: granted although nothing is left, because Tail stayed at 5. */
  lemma OverrunServesStaleCells() returns (t: Queue<nat>)
    ensures ConfigOk(Sizes(5)) && Reaches(Init(Sizes(5), Cells(5)), t) && t.rHeadCount > t.tailCount
    ensures Reaches(Init(Sizes(5), Cells(5)), Cornered(5))
    ensures Enabled(Cornered(5), CompactQueue(5)) && Overruns(Cornered(5), CompactQueue(5))
  {
    hide Reaches;
    ReachesCornered(5);
    Compacts(5);
    t := DrainedPop();
  }

  lemma DrainedPop() returns (t: Queue<nat>)
    ensures Reaches(Init(Sizes(5), Cells(5)), t) && t.rHeadCount > t.tailCount
  {
    hide Reaches;
    ReachesDrained();
    var s0, s1 := Init(Sizes(5), Cells(5)), Drained();
    Next(s0, s1, ReadSize(1, 1));
    Next(s0, Apply(s1, ReadSize(1, 1)), ReadForPop);
    var s2 := s1.(popper := Reading(PopReads(1, 1, 5, 0, 5)));
    Next(s0, s2, ReservePop);
    t := Apply(s2, ReservePop);
  }

  // ---------------------------------------------------------------------------------------------
  // A pop between the compaction and the store to NumElm
  // ---------------------------------------------------------------------------------------------

  /** A pop of two has read NumElm 4, while Tail is 5 already. */
  function Misled(): Queue<nat> {
    Compacted(8).(popper := Reading(PopReads(2, 2, 4, 3, 5)))
  }

  /** It sent ReservedHead to 1, and then NumElm was stored. */
  function Astray(): Queue<nat> {
    Compacted(8).(numElm := 8, pusher := Rechecking(PushReads(3, 8, 1, 3)), rHead := 1, rHeadCount := 5,
                  pops := [FirstPop(), Held(3, 2, 2, (Window(3, 1), Window(0, 1)), 1)])
  }

  lemma ReachesMisled()
    ensures Reaches(Init(Sizes(8), Cells(8)), Misled())
  {
    hide Reaches;
    ReachesCompacted(8);
    var s0, s1 := Init(Sizes(8), Cells(8)), Compacted(8);
    Next(s0, s1, ReadSize(2, 2));
    Next(s0, Apply(s1, ReadSize(2, 2)), ReadForPop);
  }

  lemma ReachesAstray()
    ensures Reaches(Init(Sizes(8), Cells(8)), Astray())
  {
    hide Reaches;
    ReachesMisled();
    var s0, s1 := Init(Sizes(8), Cells(8)), Misled();
    Next(s0, s1, ReservePop);
    var s2 := Apply(s1, ReservePop);
    Next(s0, s2, LeavePop);
    var s3 := Apply(s2, LeavePop);
    Next(s0, s3, StoreSize);
    assert s3.pops == Astray().pops;
    assert Apply(s3, StoreSize) == Astray();
  }

  /** Up to the stray pop the queue is sound. */
  lemma MisledSound()
    ensures Inv(Misled()) && Enabled(Misled(), ReservePop) && Strays(Misled(), ReservePop)
  {
    var s := Misled();
    assert CellLogged(s, 3) && CellLogged(s, 4);
  }

  /** Both elements were taken, but the four cells from 1 up to Tail are on offer. */
  lemma StrayServesStaleCells() returns (t: Queue<nat>)
    ensures ConfigOk(Sizes(8)) && Reaches(Init(Sizes(8), Cells(8)), t) && t.rHeadCount == t.tailCount + 4
    ensures Reaches(Init(Sizes(8), Cells(8)), Cornered(8))
    ensures Enabled(Cornered(8), CompactQueue(8)) && !Overruns(Cornered(8), CompactQueue(8))
    ensures Reaches(Init(Sizes(8), Cells(8)), Misled())
    ensures Inv(Misled()) && Enabled(Misled(), ReservePop) && Strays(Misled(), ReservePop)
  {
    hide Reaches;
    ReachesCornered(8);
    Compacts(8);
    ReachesMisled();
    MisledSound();
    t := AstrayPop();
  }

  lemma AstrayPop() returns (t: Queue<nat>)
    ensures Reaches(Init(Sizes(8), Cells(8)), t) && t.rHeadCount == t.tailCount + 4
  {
    hide Reaches;
    ReachesAstray();
    var s0, s1 := Init(Sizes(8), Cells(8)), Astray();
    Next(s0, s1, ReadSize(4, 4));
    Next(s0, Apply(s1, ReadSize(4, 4)), ReadForPop);
    var s2 := s1.(popper := Reading(PopReads(4, 4, 8, 1, 5)));
    Next(s0, s2, ReservePop);
    t := Apply(s2, ReservePop);
  }

  // ---------------------------------------------------------------------------------------------
  // A growth in place between a pop's read of NumElm and its read of Tail
  // ---------------------------------------------------------------------------------------------

  /** Of the first three elements two have been popped. */
  function OneLeft(): Queue<nat> {
    Filled(8).(head := 2, rHead := 2, headCount := 2, rHeadCount := 2,
               pops := [Held(0, 2, 2, (Window(0, 2), Window(0, 0)), 2)], popDone := 1)
  }

  /** A pop of three has read NumElm 4; a push of three grew the queue to 8 and committed. */
  function Overtaken(): Queue<nat> {
    OneLeft().(n := 8, numElm := 8, tail := 6, rTail := 6, tailCount := 6, rTailCount := 6, popper := Sizing(3, 3, 4),
               pushes := [FirstPush(), Held(3, 3, 3, (Window(3, 3), Window(0, 0)), 6)], pushDone := 2,
               log := [0, 1, 2, 3, 4, 5])
  }

  /** It goes on to read Tail 6. */
  function Fooled(): Queue<nat> {
    Overtaken().(popper := Reading(PopReads(3, 3, 4, 2, 6)))
  }

  lemma ReachesOneLeft()
    ensures Reaches(Init(Sizes(8), Cells(8)), OneLeft())
  {
    hide Reaches;
    ReachesFilled(8);
    var s0, s1 := Init(Sizes(8), Cells(8)), Filled(8);
    Next(s0, s1, ReadSize(2, 2));
    Next(s0, Apply(s1, ReadSize(2, 2)), ReadForPop);
    var s2 := s1.(popper := Reading(PopReads(2, 2, 4, 0, 3)));
    Next(s0, s2, ReservePop);
    var s3 := Apply(s2, ReservePop);
    assert s3.pops == OneLeft().pops;
    Next(s0, s3, LeavePop);
    var s4 := Apply(s3, LeavePop);
    Next(s0, s4, CommitPop);
    assert Apply(s4, CommitPop) == OneLeft();
  }

  /** Up to the growth. */
  function Grown(): Queue<nat> {
    OneLeft().(n := 8, numElm := 8, popper := Sizing(3, 3, 4), pusher := Rechecking(PushReads(3, 8, 3, 2)))
  }

  lemma ReachesGrown()
    ensures Reaches(Init(Sizes(8), Cells(8)), Grown())
  {
    hide Reaches;
    ReachesOneLeft();
    var s0, s1 := Init(Sizes(8), Cells(8)), OneLeft();
    Next(s0, s1, ReadSize(3, 3));
    var s2 := Apply(s1, ReadSize(3, 3));
    Next(s0, s2, ReadForPush(3));
    var s3 := Apply(s2, ReadForPush(3));
    assert CalcGrown(s3.cfg, 4, 3) == 8;
    Next(s0, s3, GrowQueue(8));
    assert Apply(s3, GrowQueue(8)) == Grown();
  }

  lemma ReachesOvertaken()
    ensures Reaches(Init(Sizes(8), Cells(8)), Overtaken())
  {
    hide Reaches;
    ReachesGrown();
    var s0, s1 := Init(Sizes(8), Cells(8)), Grown();
    Next(s0, s1, ReservePush);
    var s2 := Apply(s1, ReservePush);
    assert s2.pushes == Overtaken().pushes;
    Next(s0, s2, CommitPush);
    assert Contents(s2, s2.pushes[1]) == [3, 4, 5];
    assert Apply(s2, CommitPush) == Overtaken();
  }

  lemma FooledSound()
    ensures Inv(Fooled()) && Enabled(Fooled(), ReservePop) && Strays(Fooled(), ReservePop)
  {
    var s := Fooled();
    assert CellLogged(s, 2) && CellLogged(s, 3) && CellLogged(s, 4) && CellLogged(s, 5);
    assert EndsAtNext(s.pushes, 1, 6);
  }

  /** The pop is handed cells 2, 3 and 0 instead of 2, 3 and 4: the last one is stale. */
  lemma GrowthServesStaleCell() returns (t: Queue<nat>)
    ensures ConfigOk(Sizes(8)) && Reaches(Init(Sizes(8), Cells(8)), t)
    ensures Reaches(Init(Sizes(8), Cells(8)), Fooled())
    ensures Fooled().pusher.Idle? && Inv(Fooled()) && Enabled(Fooled(), ReservePop) && Strays(Fooled(), ReservePop)
    ensures Unread(Fooled()) == [2, 3, 4, 5] && t == Apply(Fooled(), ReservePop)
    ensures |t.pops| == 2 && WindowInside(t.pops[1], |t.buff|) && Contents(t, t.pops[1]) == [2, 3, 0]
  {
    hide Reaches;
    ReachesOvertaken();
    FooledSound();
    var s0 := Init(Sizes(8), Cells(8));
    Next(s0, Overtaken(), ReadForPop);
    Next(s0, Fooled(), ReservePop);
    t := Apply(Fooled(), ReservePop);
    FooledWindow();
  }

  lemma FooledWindow()
    ensures Enabled(Fooled(), ReservePop)
    ensures var t := Apply(Fooled(), ReservePop);
      |t.pops| == 2 && WindowInside(t.pops[1], |t.buff|) && Contents(t, t.pops[1]) == [2, 3, 0]
  {
    var t := Apply(Fooled(), ReservePop);
    assert t.pops[1].win == (Window(2, 2), Window(0, 1)) && t.buff == Cells(8);
  }
}
