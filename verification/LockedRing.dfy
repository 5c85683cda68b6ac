/** The lock-based ring over whole runs: the ring's fields and its two locks, with any number of threads. */
module LockedRing {
  // Reserving reads the indices, decides and stores the reserved index inside the reserve section, so
  // it is one step (OneReserves says why it may be); the window is filled at any time before its owner
  // stores Tail; every access to a lock is a step of its own.  The cancel that does not wait for its
  // turn (EarlyCancel) is a step like any other here: the results say what depends on it.

  import opened Common
  import opened RingIndex
  import opened BlockingRing
  import R = RingQueue
  import L = RingLock
  import T = TwoPhaseLock
  import EarlyCancel
  import ReserveOrder

  datatype Queue<E> = Queue(ring: R.Ring<E>, push: L.Side, pop: L.Side)

  datatype Action<E> =
    | PushLock(b: EarlyCancel.Access)
    | TryPush(tid: nat, num: nat)
    | WriteCell(tid: nat, i: nat, v: E)
    | StoreTail(tid: nat)
    | PopLock(c: EarlyCancel.Access)
    | TryPop(tid: nat, peek: nat, num: nat)
    | StoreHead(tid: nat)

  function Init<E>(buff: seq<E>, threads: nat): Queue<E> {
    Queue(R.Init(buff), L.Empty(threads), L.Empty(threads))
  }

  predicate Holding(side: L.Side, made: nat) {
    forall t :: 0 <= t < |side.jobs| && side.jobs[t].Granted? ==> side.jobs[t].k < made
  }

  predicate Wellformed<E>(s: Queue<E>) {
    && R.Wellformed(s.ring) && L.Sized(s.push) && L.Sized(s.pop)
    && Holding(s.push, |s.ring.pushes|) && Holding(s.pop, |s.ring.pops|)
  }

  predicate Room<E>(s: Queue<E>, num: nat) { HaveEnoughRoom(s.ring.n, s.ring.rTail, s.ring.head, num) }

  predicate Data<E>(s: Queue<E>, peek: nat) { HaveEnoughData(s.ring.n, s.ring.rHead, s.ring.tail, peek) }

  predicate Enabled<E>(s: Queue<E>, a: Action<E>)
    requires Wellformed(s)
  {
    match a
    case PushLock(b) => L.CanMove(s.push, L.Enter(b))
    case TryPush(t, num) => num >= 1 && L.CanMove(s.push, L.Attempt(t, Room(s, num)))
    case WriteCell(t, i, _) => t < |s.push.jobs| && s.push.jobs[t].Granted? && i < s.ring.pushes[s.push.jobs[t].k].num
    case StoreTail(t) => L.CanMove(s.push, L.Store(t))
    case PopLock(c) => L.CanMove(s.pop, L.Enter(c))
    case TryPop(t, peek, num) => 1 <= num <= peek && L.CanMove(s.pop, L.Attempt(t, Data(s, peek)))
    case StoreHead(t) => L.CanMove(s.pop, L.Store(t))
  }

  /** Reservation `k` stores its index to Tail.  If it is the oldest one, its window is committed. */
  function TailStored<E>(ring: R.Ring<E>, k: nat): R.Ring<E>
    requires R.Wellformed(ring) && k < |ring.pushes|
  {
    var r := ring.pushes[k];
    if k == ring.pushDone then
      ring.(tail := r.newIndex, tailCount := ring.tailCount + r.num, pushDone := k + 1, log := ring.log + R.Contents(ring, r))
    else ring.(tail := r.newIndex)
  }

  function HeadStored<E>(ring: R.Ring<E>, k: nat): R.Ring<E>
    requires k < |ring.pops|
  {
    var r := ring.pops[k];
    if k == ring.popDone then ring.(head := r.newIndex, headCount := ring.headCount + r.num, popDone := k + 1)
    else ring.(head := r.newIndex)
  }

  ghost function Apply<E>(s: Queue<E>, a: Action<E>): Queue<E>
    requires Wellformed(s) && Enabled(s, a)
  {
    var made, taken := |s.ring.pushes|, |s.ring.pops|;
    match a
    case PushLock(b) => s.(push := L.Moved(s.push, L.Enter(b), made))
    case TryPush(t, num) =>
      s.(push := L.Moved(s.push, L.Attempt(t, Room(s, num)), made),
         ring := if Room(s, num) then R.SwapTail(ReadForPush(s.ring, t), t, num) else s.ring)
    case WriteCell(t, i, v) => s.(ring := R.WriteAt(s.ring, s.ring.pushes[s.push.jobs[t].k], i, v))
    case StoreTail(t) =>
      s.(push := L.Moved(s.push, L.Store(t), made), ring := TailStored(s.ring, s.push.jobs[t].k))
    case PopLock(c) => s.(pop := L.Moved(s.pop, L.Enter(c), taken))
    case TryPop(t, peek, num) =>
      s.(pop := L.Moved(s.pop, L.Attempt(t, Data(s, peek)), taken),
         ring := if Data(s, peek) then R.SwapHead(ReadForPop(s.ring, t), t, peek, num) else s.ring)
    case StoreHead(t) =>
      s.(pop := L.Moved(s.pop, L.Store(t), taken), ring := HeadStored(s.ring, s.pop.jobs[t].k))
  }

  // ---------------------------------------------------------------------------------------------
  // Sound exactly as long as the oldest commits
  // ---------------------------------------------------------------------------------------------

  /** Every reservation that has not been committed is held by at most one caller. */
  ghost predicate JobsOk(side: L.Side, made: nat, done: nat) {
    && (forall t :: 0 <= t < |side.jobs| && side.jobs[t].Granted? ==> done <= side.jobs[t].k < made)
    && (forall t, u :: 0 <= t < u < |side.jobs| && side.jobs[t].Granted? && side.jobs[u].Granted? ==>
          side.jobs[t].k != side.jobs[u].k)
  }

  ghost predicate Sound<E>(s: Queue<E>) {
    && R.Inv(s.ring) && L.Sized(s.push) && L.Sized(s.pop)
    && JobsOk(s.push, |s.ring.pushes|, s.ring.pushDone) && JobsOk(s.pop, |s.ring.pops|, s.ring.popDone)
  }

  /** A commit that is not one of the oldest reservation. */
  predicate Early<E>(s: Queue<E>, a: Action<E>)
    requires Wellformed(s) && Enabled(s, a)
  {
    match a
    case StoreTail(t) => s.push.jobs[t].k != s.ring.pushDone
    case StoreHead(t) => s.pop.jobs[t].k != s.ring.popDone
    case _ => false
  }

  lemma JobsMove(side: L.Side, m: L.Move, made: nat, made': nat, done: nat, done': nat)
    requires JobsOk(side, made, done) && L.Sized(side) && L.CanMove(side, m)
    requires m.Enter? ==> made' == made && done' == done
    requires m.Attempt? ==> made' == made + (if m.granted then 1 else 0) && done' == done <= made
    requires m.Store? ==> made' == made && side.jobs[m.tid].k == done && done' == done + 1
    ensures JobsOk(L.Moved(side, m, made), made', done')
  {
    hide L.Allowed, EarlyCancel.Do;
  }

  lemma SizedMove(side: L.Side, m: L.Move, made: nat)
    requires L.Sized(side) && L.CanMove(side, m) && !m.Enter?
    ensures L.Sized(L.Moved(side, m, made))
  {
  }

  /** What a reservation under the lock does to the ring. */
  lemma TryPushEffect<E>(s: R.Ring<E>, t: nat, num: nat)
    requires R.Inv(s) && num >= 1
    ensures R.Wellformed(s)
    ensures var s' := R.SwapTail(ReadForPush(s, t), t, num);
      && R.Inv(s') && s'.pops == s.pops && s'.popDone == s.popDone && s'.pushDone == s.pushDone <= |s.pushes|
      && |s'.pushes| == |s.pushes| + (if HaveEnoughRoom(s.n, s.rTail, s.head, num) then 1 else 0)
      && s'.rHeadCount == s.rHeadCount && s'.tailCount == s.tailCount && s'.log == s.log
  {
    hide Index, R.Inv, R.Wellformed, HaveEnoughRoom, Advance;
    R.InvLengths(s);
    PushReserved(s, t, num);
    DoneBelow(s);
  }

  lemma TryPopEffect<E>(s: R.Ring<E>, t: nat, peek: nat, num: nat)
    requires R.Inv(s) && 1 <= num <= peek
    ensures R.Wellformed(s)
    ensures var s' := R.SwapHead(ReadForPop(s, t), t, peek, num);
      && R.Inv(s') && s'.pushes == s.pushes && s'.pushDone == s.pushDone && s'.popDone == s.popDone <= |s.pops|
      && |s'.pops| == |s.pops| + (if HaveEnoughData(s.n, s.rHead, s.tail, peek) then 1 else 0)
  {
    hide Index, R.Inv, R.Wellformed, HaveEnoughData, Advance;
    R.InvLengths(s);
    PopReserved(s, t, peek, num);
    DoneBelow(s);
  }

  lemma DoneBelow<E>(s: R.Ring<E>)
    requires R.Inv(s)
    ensures s.pushDone <= |s.pushes| && s.popDone <= |s.pops| && R.Wellformed(s)
  {
  }

  lemma StoreTailExact<E>(s: R.Ring<E>, k: nat)
    requires R.Inv(s) && s.pushDone <= k < |s.pushes|
    ensures R.Wellformed(s) && (R.Inv(TailStored(s, k)) <==> k == s.pushDone)
    ensures k == s.pushDone ==> TailStored(s, k) == R.Apply(s, R.CommitPush(k))
  {
    hide R.Inv, R.Contents;
    R.InvLengths(s);
    EarlyTail(s, k);
    if k == s.pushDone {
      R.CommitPushOnlyOldest(s, k);
      R.CommitPushInv(s, k);
    }
  }

  lemma StoreHeadExact<E>(s: R.Ring<E>, k: nat)
    requires R.Inv(s) && s.popDone <= k < |s.pops|
    ensures R.Wellformed(s) && (R.Inv(HeadStored(s, k)) <==> k == s.popDone)
    ensures k == s.popDone ==> HeadStored(s, k) == R.Apply(s, R.CommitPop(k))
  {
    hide R.Inv, R.Contents;
    R.InvLengths(s);
    EarlyHead(s, k);
    if k == s.popDone {
      R.CommitPopOnlyOldest(s, k);
      R.CommitPopInv(s, k);
    }
  }

  /** One step keeps the ring sound if and only if it is not an early commit. */
  lemma StepSound<E>(s: Queue<E>, a: Action<E>)
    requires Sound(s) && Wellformed(s) && Enabled(s, a)
    ensures R.Inv(Apply(s, a).ring) <==> !Early(s, a)
  {
    hide R.Inv, R.Wellformed, R.SwapTail, R.SwapHead, R.WriteAt, TailStored, HeadStored, L.Moved, L.CanMove;
    hide HaveEnoughRoom, HaveEnoughData;
    CallersBound(s, a);
    match a
    case TryPush(t, num) => TryPushEffect(s.ring, t, num);
    case WriteCell(t, i, v) => R.WriteCellInv(s.ring, s.push.jobs[t].k, i, v);
    case StoreTail(t) => StoreTailExact(s.ring, s.push.jobs[t].k);
    case TryPop(t, peek, num) => TryPopEffect(s.ring, t, peek, num);
    case StoreHead(t) => StoreHeadExact(s.ring, s.pop.jobs[t].k);
    case _ =>
  }

  /** Whoever stores an index holds a reservation that has not been committed. */
  lemma CallersBound<E>(s: Queue<E>, a: Action<E>)
    requires Sound(s) && Wellformed(s) && Enabled(s, a)
    ensures a.StoreTail? || a.WriteCell? ==>
      a.tid < |s.push.jobs| && s.push.jobs[a.tid].Granted? && s.ring.pushDone <= s.push.jobs[a.tid].k < |s.ring.pushes|
    ensures a.StoreHead? ==>
      a.tid < |s.pop.jobs| && s.pop.jobs[a.tid].Granted? && s.ring.popDone <= s.pop.jobs[a.tid].k < |s.ring.pops|
  {
    hide R.Inv, R.Wellformed;
  }

  lemma SizedEnter(side: L.Side, b: EarlyCancel.Access, made: nat)
    requires L.Sized(side) && L.CanMove(side, L.Enter(b))
    ensures L.Sized(L.Moved(side, L.Enter(b), made))
  {
  }

  /** Anything but an early commit also keeps who holds what. */
  lemma StepKeeps<E>(s: Queue<E>, a: Action<E>)
    requires Sound(s) && Wellformed(s) && Enabled(s, a) && !Early(s, a)
    ensures Sound(Apply(s, a))
  {
    hide R.Inv, R.Wellformed, R.SwapTail, R.SwapHead, R.WriteAt, TailStored, HeadStored, L.Moved, L.CanMove, L.Sized;
    hide HaveEnoughRoom, HaveEnoughData, JobsOk, Wellformed;
    StepSound(s, a);
    CallersBound(s, a);
    DoneBelow(s.ring);
    match a
    case PushLock(b) =>
      JobsMove(s.push, L.Enter(b), |s.ring.pushes|, |s.ring.pushes|, s.ring.pushDone, s.ring.pushDone);
      SizedEnter(s.push, b, |s.ring.pushes|);
    case PopLock(b) =>
      JobsMove(s.pop, L.Enter(b), |s.ring.pops|, |s.ring.pops|, s.ring.popDone, s.ring.popDone);
      SizedEnter(s.pop, b, |s.ring.pops|);
    case TryPush(t, num) =>
      var m := L.Attempt(t, Room(s, num));
      TryPushEffect(s.ring, t, num);
      JobsMove(s.push, m, |s.ring.pushes|, |Apply(s, a).ring.pushes|, s.ring.pushDone, s.ring.pushDone);
      SizedMove(s.push, m, |s.ring.pushes|);
    case TryPop(t, peek, num) =>
      var m := L.Attempt(t, Data(s, peek));
      TryPopEffect(s.ring, t, peek, num);
      JobsMove(s.pop, m, |s.ring.pops|, |Apply(s, a).ring.pops|, s.ring.popDone, s.ring.popDone);
      SizedMove(s.pop, m, |s.ring.pops|);
    case WriteCell(t, i, v) =>
      WriteEffect(s.ring, s.push.jobs[t].k, i, v);
    case StoreTail(t) =>
      StoreEffect(s.ring, s.push.jobs[t].k);
      JobsMove(s.push, L.Store(t), |s.ring.pushes|, |s.ring.pushes|, s.ring.pushDone, s.ring.pushDone + 1);
      SizedMove(s.push, L.Store(t), |s.ring.pushes|);
    case StoreHead(t) =>
      PopStoreEffect(s.ring, s.pop.jobs[t].k);
      JobsMove(s.pop, L.Store(t), |s.ring.pops|, |s.ring.pops|, s.ring.popDone, s.ring.popDone + 1);
      SizedMove(s.pop, L.Store(t), |s.ring.pops|);
  }

  lemma WriteEffect<E>(s: R.Ring<E>, k: nat, i: nat, v: E)
    requires R.Wellformed(s) && k < |s.pushes| && i < s.pushes[k].num
    ensures var s' := R.WriteAt(s, s.pushes[k], i, v);
      s'.pushes == s.pushes && s'.pops == s.pops && s'.pushDone == s.pushDone && s'.popDone == s.popDone &&
      s'.rHeadCount == s.rHeadCount && s'.tailCount == s.tailCount && s'.log == s.log
  {
  }

  lemma StoreEffect<E>(s: R.Ring<E>, k: nat)
    requires R.Wellformed(s) && k == s.pushDone < |s.pushes|
    ensures var s' := TailStored(s, k);
      s'.pushes == s.pushes && s'.pops == s.pops && s'.pushDone == s.pushDone + 1 && s'.popDone == s.popDone
  {
    hide R.Wellformed, R.Contents;
  }

  lemma PopStoreEffect<E>(s: R.Ring<E>, k: nat)
    requires k == s.popDone < |s.pops|
    ensures var s' := HeadStored(s, k);
      s'.pushes == s.pushes && s'.pops == s.pops && s'.pushDone == s.pushDone && s'.popDone == s.popDone + 1 &&
      s'.rHeadCount == s.rHeadCount && s'.tailCount == s.tailCount && s'.log == s.log
  {
  }

  // ---------------------------------------------------------------------------------------------
  // A FIFO queue as long as it is sound
  // ---------------------------------------------------------------------------------------------

  predicate Offers<E>(s: Queue<E>) { s.ring.rHeadCount <= s.ring.tailCount <= |s.ring.log| }

  /** Committed and not yet reserved by a pop. */
  function Unread<E>(s: Queue<E>): seq<E>
    requires Offers(s)
  {
    R.Queue(s.ring)
  }

  /** What a step adds at the back: the window whose index it stores. */
  function Arriving<E>(s: Queue<E>, a: Action<E>): seq<E>
    requires Wellformed(s) && Enabled(s, a)
  {
    if a.StoreTail? then R.Contents(s.ring, s.ring.pushes[s.push.jobs[a.tid].k]) else []
  }

  /** What a step takes from the front: the first `num` elements, if the pop is granted. */
  function Leaving<E>(s: Queue<E>, a: Action<E>): seq<E>
    requires Wellformed(s) && Enabled(s, a)
  {
    if a.TryPop? && Data(s, a.peek) && Offers(s) && a.num <= |Unread(s)| then Unread(s)[..a.num] else []
  }

  lemma TryPopTakes<E>(s: R.Ring<E>, t: nat, peek: nat, num: nat)
    requires R.Inv(s) && 1 <= num <= peek
    ensures R.Wellformed(s) && s.rHeadCount <= s.tailCount <= |s.log|
    ensures HaveEnoughData(s.n, s.rHead, s.tail, peek) <==> |R.Queue(s)| >= peek
    ensures HaveEnoughData(s.n, s.rHead, s.tail, peek) ==> var s' := R.SwapHead(ReadForPop(s, t), t, peek, num);
      && R.Wellformed(s') && s'.rHeadCount <= s'.tailCount <= |s'.log| && R.Queue(s') == R.Queue(s)[num..]
      && |s'.pops| == |s.pops| + 1 && s'.pops[|s.pops|].span == peek && s'.pops[|s.pops|].tid == t
      && R.Contents(s', s'.pops[|s.pops|]) == R.Queue(s)[..peek]
  {
    hide Index, R.Inv, R.Wellformed, HaveEnoughData, Advance, R.Contents;
    R.InvLengths(s);
    PopReserved(s, t, peek, num);
    var both := ReadForPop(s, t);
    R.InvLengths(both);
    R.SwapTakes(both, t, peek, num);
    R.InvLengths(R.SwapHead(both, t, peek, num));
  }

  /** One step as a step of the FIFO queue: only the store of Tail appends, and exactly the window it
      stands for; only a pop takes elements, from the front, and it is granted exactly when `peek`
      elements are there, which its window then shows; a push is granted exactly when it fits. */
  lemma RefinesFifo<E>(s: Queue<E>, a: Action<E>)
    requires Sound(s) && Wellformed(s) && Enabled(s, a) && !Early(s, a)
    ensures Offers(s) && Offers(Apply(s, a))
    ensures Unread(s) + Arriving(s, a) == Leaving(s, a) + Unread(Apply(s, a))
    ensures a.TryPush? ==>
      && (Room(s, a.num) <==> s.ring.rTailCount + a.num <= s.ring.headCount + s.ring.n - 1)
      && |Apply(s, a).ring.pushes| == |s.ring.pushes| + (if Room(s, a.num) then 1 else 0)
    ensures a.TryPop? ==> (Data(s, a.peek) <==> a.peek <= |Unread(s)|)
    ensures a.TryPop? && Data(s, a.peek) ==> var ring := Apply(s, a).ring;
      && Leaving(s, a) == Unread(s)[..a.num]
      && R.Wellformed(ring) && |ring.pops| == |s.ring.pops| + 1 && ring.pops[|s.ring.pops|].tid == a.tid
      && R.Contents(ring, ring.pops[|s.ring.pops|]) == Unread(s)[..a.peek]
  {
    hide R.Inv, R.Wellformed, R.SwapTail, R.SwapHead, R.WriteAt, TailStored, HeadStored, L.Moved, L.CanMove, L.Sized;
    hide HaveEnoughRoom, HaveEnoughData, JobsOk, R.Contents;
    CallersBound(s, a);
    DoneBelow(s.ring);
    R.InvLengths(s.ring);
    match a
    case TryPush(t, num) =>
      PushReserved(s.ring, t, num);
      TryPushEffect(s.ring, t, num);
    case WriteCell(t, i, v) =>
      WriteEffect(s.ring, s.push.jobs[t].k, i, v);
    case StoreTail(t) =>
      StoreTailExact(s.ring, s.push.jobs[t].k);
      PushCommitted(s.ring, s.push.jobs[t].k);
    case TryPop(t, peek, num) =>
      TryPopTakes(s.ring, t, peek, num);
    case StoreHead(t) =>
      PopStoreEffect(s.ring, s.pop.jobs[t].k);
    case _ =>
  }

  // ---------------------------------------------------------------------------------------------
  // Whole runs
  // ---------------------------------------------------------------------------------------------

  ghost predicate CanRun<E>(s: Queue<E>, run: seq<Action<E>>)
    decreases |run|
  {
    run == [] || (Wellformed(s) && Enabled(s, run[0]) && CanRun(Apply(s, run[0]), run[1..]))
  }

  ghost function Run<E>(s: Queue<E>, run: seq<Action<E>>): Queue<E>
    requires CanRun(s, run)
    decreases |run|
  {
    if run == [] then s else Run(Apply(s, run[0]), run[1..])
  }

  /** Every commit of the run is one of the oldest reservation. */
  ghost predicate NeverEarly<E>(s: Queue<E>, run: seq<Action<E>>)
    requires CanRun(s, run)
    decreases |run|
  {
    run == [] || (!Early(s, run[0]) && NeverEarly(Apply(s, run[0]), run[1..]))
  }

  /** The ring is sound in every state of the run. */
  ghost predicate AlwaysSound<E>(s: Queue<E>, run: seq<Action<E>>)
    requires CanRun(s, run)
    decreases |run|
  {
    R.Inv(s.ring) && (run == [] || AlwaysSound(Apply(s, run[0]), run[1..]))
  }

  /** Over whole runs, whatever the locks let through: the ring stays sound if and only if every
      commit is one of the oldest reservation. */
  lemma {:induction false} RunSound<E>(s: Queue<E>, run: seq<Action<E>>)
    requires Sound(s) && CanRun(s, run)
    ensures AlwaysSound(s, run) <==> NeverEarly(s, run)
    decreases |run|
  {
    hide Wellformed, Apply, Early, Enabled, R.Inv;
    if run != [] {
      StepSound(s, run[0]);
      if !Early(s, run[0]) {
        StepKeeps(s, run[0]);
        RunSound(Apply(s, run[0]), run[1..]);
      } else {
        Unsound(Apply(s, run[0]), run[1..]);
      }
    }
  }

  lemma Unsound<E>(s: Queue<E>, run: seq<Action<E>>)
    requires !R.Inv(s.ring) && CanRun(s, run)
    ensures !AlwaysSound(s, run)
  {
  }

  /** All elements committed and all elements popped along a run. */
  ghost function Committed<E>(s: Queue<E>, run: seq<Action<E>>): seq<E>
    requires CanRun(s, run)
    decreases |run|
  {
    if run == [] then [] else Arriving(s, run[0]) + Committed(Apply(s, run[0]), run[1..])
  }

  ghost function Popped<E>(s: Queue<E>, run: seq<Action<E>>): seq<E>
    requires CanRun(s, run)
    decreases |run|
  {
    if run == [] then [] else Leaving(s, run[0]) + Popped(Apply(s, run[0]), run[1..])
  }

  /** Over every run without an early commit: what was in the queue and what was committed, in order,
      is what was popped, in order, and what is still there. */
  lemma {:induction false} RunIsFifo<E>(s: Queue<E>, run: seq<Action<E>>)
    requires Sound(s) && CanRun(s, run) && NeverEarly(s, run)
    ensures Sound(Run(s, run)) && Offers(s) && Offers(Run(s, run))
    ensures Unread(s) + Committed(s, run) == Popped(s, run) + Unread(Run(s, run))
    decreases |run|
  {
    hide Sound, Wellformed, Apply, Arriving, Leaving, Unread, Early, Enabled, Offers;
    SoundOffers(s);
    if run == [] {
      assert Unread(s) + [] == [] + Unread(s);
    } else {
      StepKeeps(s, run[0]);
      RefinesFifo(s, run[0]);
      var s1 := Apply(s, run[0]);
      RunIsFifo(s1, run[1..]);
      Glue(Unread(s), Arriving(s, run[0]), Leaving(s, run[0]), Unread(s1),
           Committed(s1, run[1..]), Popped(s1, run[1..]), Unread(Run(s1, run[1..])));
    }
  }

  lemma SoundOffers<E>(s: Queue<E>)
    requires Sound(s)
    ensures Offers(s)
  {
    hide R.Inv, JobsOk;
    R.InvLengths(s.ring);
  }

  // ---------------------------------------------------------------------------------------------
  // Reservations are made one at a time
  // ---------------------------------------------------------------------------------------------

  ghost predicate Lines<E>(s: Queue<E>) {
    ReserveOrder.LineOk(s.push.lock) && ReserveOrder.LineOk(s.pop.lock)
  }

  lemma StepKeepsLines<E>(s: Queue<E>, a: Action<E>)
    requires Lines(s) && Wellformed(s) && Enabled(s, a)
    ensures Lines(Apply(s, a))
  {
    hide ReserveOrder.LineOk, R.SwapTail, R.SwapHead, R.WriteAt, R.Wellformed, TailStored, HeadStored, EarlyCancel.Do;
    match a
    case PushLock(b) => ReserveOrder.DoKeepsLine(s.push.lock, b);
    case PopLock(c) => ReserveOrder.DoKeepsLine(s.pop.lock, c);
    case _ =>
  }

  lemma {:induction false} RunKeepsLines<E>(s: Queue<E>, run: seq<Action<E>>)
    requires Lines(s) && CanRun(s, run)
    ensures Lines(Run(s, run))
    decreases |run|
  {
    hide Lines, Wellformed, Enabled, Apply;
    if run != [] {
      StepKeepsLines(s, run[0]);
      RunKeepsLines(Apply(s, run[0]), run[1..]);
    }
  }

  /** In every state of every run, sound or not, at most one thread of a side may reserve: nothing can
      come between the reads of a reservation and its store but commits of the other side, so that it
      may be taken as one step. */
  lemma OneReserves<E>(buff: seq<E>, threads: nat, run: seq<Action<E>>, t: nat, u: nat)
    requires CanRun(Init(buff, threads), run) && Wellformed(Run(Init(buff, threads), run))
    ensures var s := Run(Init(buff, threads), run);
      && (forall m, n: nat :: Enabled(s, TryPush(t, m)) && Enabled(s, TryPush(u, n)) ==> t == u)
      && (forall m, n, p, q: nat :: Enabled(s, TryPop(t, m, n)) && Enabled(s, TryPop(u, p, q)) ==> t == u)
  {
    hide ReserveOrder.LineOk, CanRun, Run, R.Wellformed;
    var s := Run(Init(buff, threads), run);
    ReserveOrder.InitLine(threads);
    RunKeepsLines(Init(buff, threads), run);
    ReserveOrder.OneInside(s.push.lock, t, u);
    ReserveOrder.OneInside(s.pop.lock, t, u);
  }

  // ---------------------------------------------------------------------------------------------
  // The locks keep commits in order, but for the cancel that does not wait
  // ---------------------------------------------------------------------------------------------

  /** Nobody but the oldest caller of its side cancels without waiting. */
  predicate Patient<E>(s: Queue<E>, a: Action<E>)
    requires Wellformed(s) && Enabled(s, a)
  {
    match a
    case PushLock(b) => b.SkipWait? ==> s.push.lock.records[b.tid].commitLock.Go?
    case PopLock(c) => c.SkipWait? ==> s.pop.lock.records[c.tid].commitLock.Go?
    case _ => true
  }

  ghost predicate Ordered<E>(s: Queue<E>) {
    && Sound(s)
    && L.SideOk(s.push, |s.ring.pushes|, s.ring.pushDone) && L.SideOk(s.pop, |s.ring.pops|, s.ring.popDone)
  }

  /** Then whoever stores an index holds the oldest reservation, and the account of both sides is kept. */
  lemma PatientStep<E>(s: Queue<E>, a: Action<E>)
    requires Ordered(s) && Wellformed(s) && Enabled(s, a) && Patient(s, a)
    ensures !Early(s, a) && Ordered(Apply(s, a))
  {
    hide R.Inv, R.Wellformed, R.SwapTail, R.SwapHead, R.WriteAt, TailStored, HeadStored, L.Moved, L.CanMove, L.Sized;
    hide HaveEnoughRoom, HaveEnoughData, JobsOk, L.SideOk, Sound;
    NotEarly(s, a);
    StepKeeps(s, a);
    Numbers(s, a);
    match a
    case PushLock(b) => L.EnterOk(s.push, |s.ring.pushes|, s.ring.pushDone, b);
    case TryPush(t, num) => L.AttemptOk(s.push, |s.ring.pushes|, s.ring.pushDone, t, Room(s, num));
    case StoreTail(t) => L.StoreOk(s.push, |s.ring.pushes|, s.ring.pushDone, t);
    case PopLock(c) => L.EnterOk(s.pop, |s.ring.pops|, s.ring.popDone, c);
    case TryPop(t, peek, num) => L.AttemptOk(s.pop, |s.ring.pops|, s.ring.popDone, t, Data(s, peek));
    case StoreHead(t) => L.StoreOk(s.pop, |s.ring.pops|, s.ring.popDone, t);
    case _ =>
  }

  lemma NotEarly<E>(s: Queue<E>, a: Action<E>)
    requires Ordered(s) && Wellformed(s) && Enabled(s, a)
    ensures !Early(s, a)
  {
    hide R.Inv, L.SideOk, L.CanMove, L.Sized, JobsOk;
    match a
    case StoreTail(t) => L.StoresOldest(s.push, |s.ring.pushes|, s.ring.pushDone, t);
    case StoreHead(t) => L.StoresOldest(s.pop, |s.ring.pops|, s.ring.popDone, t);
    case _ =>
  }

  /** How a step changes the numbers of reservations and commits. */
  lemma Numbers<E>(s: Queue<E>, a: Action<E>)
    requires Sound(s) && Wellformed(s) && Enabled(s, a) && !Early(s, a)
    ensures var ring, ring' := s.ring, Apply(s, a).ring;
      && |ring'.pushes| == |ring.pushes| + (if a.TryPush? && Room(s, a.num) then 1 else 0)
      && ring'.pushDone == ring.pushDone + (if a.StoreTail? then 1 else 0)
      && |ring'.pops| == |ring.pops| + (if a.TryPop? && Data(s, a.peek) then 1 else 0)
      && ring'.popDone == ring.popDone + (if a.StoreHead? then 1 else 0)
  {
    hide R.Inv, R.Wellformed, R.SwapTail, R.SwapHead, R.WriteAt, TailStored, HeadStored, L.Moved, L.CanMove, L.Sized;
    hide HaveEnoughRoom, HaveEnoughData, JobsOk;
    CallersBound(s, a);
    DoneBelow(s.ring);
    match a
    case TryPush(t, num) => TryPushEffect(s.ring, t, num);
    case WriteCell(t, i, v) => WriteEffect(s.ring, s.push.jobs[t].k, i, v);
    case StoreTail(t) => StoreEffect(s.ring, s.push.jobs[t].k);
    case TryPop(t, peek, num) => TryPopEffect(s.ring, t, peek, num);
    case StoreHead(t) => PopStoreEffect(s.ring, s.pop.jobs[t].k);
    case _ =>
  }

  ghost predicate AlwaysPatient<E>(s: Queue<E>, run: seq<Action<E>>)
    requires CanRun(s, run)
    decreases |run|
  {
    run == [] || (Patient(s, run[0]) && AlwaysPatient(Apply(s, run[0]), run[1..]))
  }

  lemma {:induction false} PatientRun<E>(s: Queue<E>, run: seq<Action<E>>)
    requires Ordered(s) && CanRun(s, run) && AlwaysPatient(s, run)
    ensures NeverEarly(s, run)
    decreases |run|
  {
    hide Ordered, Wellformed, Apply, Early, Enabled, Patient;
    if run != [] {
      PatientStep(s, run[0]);
      PatientRun(Apply(s, run[0]), run[1..]);
    }
  }

  lemma InitOrdered<E>(buff: seq<E>, threads: nat)
    requires |buff| > 0
    ensures Ordered(Init(buff, threads))
  {
    hide R.Inv, L.SideOk;
    R.InitInv(buff);
    L.EmptyOk(threads);
  }

  /** From a new queue, over every run in which only the oldest caller of a side ever cancels without
      waiting: the ring is sound in every state, and what was committed, in order, is what was
      popped, in order, and what is still there. */
  lemma PatientIsFifo<E>(buff: seq<E>, threads: nat, run: seq<Action<E>>)
    requires |buff| > 0
    requires CanRun(Init(buff, threads), run) && AlwaysPatient(Init(buff, threads), run)
    ensures var s := Init(buff, threads);
      && AlwaysSound(s, run) && Offers(Run(s, run))
      && Committed(s, run) == Popped(s, run) + Unread(Run(s, run))
  {
    hide Ordered, Sound, CanRun, AlwaysPatient, AlwaysSound, NeverEarly, Committed, Popped, Run;
    var s := Init(buff, threads);
    InitOrdered(buff, threads);
    PatientRun(s, run);
    OrderedIsSound(s);
    RunSound(s, run);
    RunIsFifo(s, run);
    assert Unread(s) == [];
    assert [] + Committed(s, run) == Committed(s, run);
  }

  lemma OrderedIsSound<E>(s: Queue<E>)
    requires Ordered(s)
    ensures Sound(s)
  {
    hide Sound, L.SideOk;
  }

  /** As long as only the oldest caller cancels without waiting, nobody is stuck on either side: whenever
      a push, or a pop, is in progress, some caller of that side can go on. */
  lemma NeverStuck<E>(s: Queue<E>, t: nat) returns (a: Action<E>)
    requires Ordered(s) && Wellformed(s)
    requires t < |s.push.lock.phases| == |s.pop.lock.phases|
    requires !s.push.lock.phases[t].Idle? || !s.pop.lock.phases[t].Idle?
    ensures Enabled(s, a) && !a.WriteCell?
    ensures if !s.push.lock.phases[t].Idle? then a.PushLock? || a.TryPush? || a.StoreTail? else a.PopLock? || a.TryPop? || a.StoreHead?
  {
    hide Sound, L.SideOk, L.CanMove, L.Sized, R.Wellformed;
    if !s.push.lock.phases[t].Idle? {
      var u := L.NeverStuck(s.push, |s.ring.pushes|, s.ring.pushDone, t);
      if L.CanMove(s.push, L.Store(u)) {
        a := StoreTail(u);
      } else if L.CanMove(s.push, L.Attempt(u, Room(s, 1))) {
        a := TryPush(u, 1);
      } else {
        a := PushLock(EarlyCancel.Regular(if s.push.lock.phases[u].Ready? then T.SwapIn(u) else T.Step(u)));
      }
    } else {
      var u := L.NeverStuck(s.pop, |s.ring.pops|, s.ring.popDone, t);
      if L.CanMove(s.pop, L.Store(u)) {
        a := StoreHead(u);
      } else if L.CanMove(s.pop, L.Attempt(u, Data(s, 1))) {
        a := TryPop(u, 1, 1);
      } else {
        a := PopLock(EarlyCancel.Regular(if s.pop.lock.phases[u].Ready? then T.SwapIn(u) else T.Step(u)));
      }
    }
  }

  /** Inside its reserve section a caller may ask for any count, and the holder of a push reservation may
      write any of its cells. */
  lemma MayAsk<E>(s: Queue<E>, t: nat, peek: nat, num: nat, v: E)
    requires Wellformed(s) && t < |s.push.jobs| && t < |s.pop.jobs| && 1 <= num <= peek
    ensures s.push.lock.phases[t].Reserving? && s.push.jobs[t].Fresh? ==> Enabled(s, TryPush(t, num))
    ensures s.pop.lock.phases[t].Reserving? && s.pop.jobs[t].Fresh? ==> Enabled(s, TryPop(t, peek, num))
    ensures s.push.jobs[t].Granted? ==>
      forall i: nat :: i < s.ring.pushes[s.push.jobs[t].k].num ==> Enabled(s, WriteCell(t, i, v))
  {
    hide R.Wellformed;
  }
}
