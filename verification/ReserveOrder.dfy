/** What the cancel that does not wait leaves intact: reserve sections stay exclusive, and are entered in
    the order of the swaps on the lock word, because whoever enters waits for the one before it alone.
    Nothing here asks who commits when. */
module ReserveOrder {
  import opened Common
  import opened TwoPhaseLock
  import opened EarlyCancel

  /** Has left its reserve section and may still be waited for. */
  predicate Past(p: Phase) { Released(p) || p.Draining? }

  /** The caller at position `i` of the swaps, whose turn to reserve has not come. */
  ghost predicate Behind(s: Lock, i: nat)
    requires Wellformed(s) && i < |s.order|
  {
    && s.order[i] < |s.phases| && s.place[s.order[i]] == i && s.records[s.order[i]].reserveLock.Wait?
    && (Waiting(PhaseAt(s, i)) || PhaseAt(s, i).First?)
    && (Waiting(PhaseAt(s, i)) ==>
          && i > 0 && WaitsFor(PhaseAt(s, i), s.order[i - 1])
          && s.order[i - 1] < |s.phases| && s.place[s.order[i - 1]] == i - 1
          && (i == s.entered ==> PhaseAt(s, i - 1).Reserving? || Past(PhaseAt(s, i - 1))))
    && (PhaseAt(s, i).Taking? ==> i == s.entered && Past(PhaseAt(s, i - 1)))
    && (PhaseAt(s, i).First? ==> i == s.entered)
    && (PhaseAt(s, i).First? && i > 0 && s.order[i - 1] < |s.phases| && s.place[s.order[i - 1]] == i - 1 ==>
          !PhaseAt(s, i - 1).Reserving?)
  }

  ghost predicate CallerOk(s: Lock, t: nat)
    requires Wellformed(s) && t < |s.phases|
  {
    var p, r, i := s.phases[t], s.records[t], s.place[t];
    && (p.Ready? ==> r.reserveLock.Wait? && r.next.None?)
    && (Queued(p) || p.Draining? ==> i < |s.order| && s.order[i] == t)
    && (Waiting(p) || p.First? ==> i >= s.entered)
    && (Entered(p) || p.Draining? ==> i < s.entered)
    && (p.Reserving? ==> i == s.entered - 1 && r.reserveLock.Wait?)
    && (Past(p) && i == s.entered - 1 ==> r.reserveLock.Go?)
    && (Queued(p) && i == |s.order| - 1 ==> s.tail == Some(t))
    && ((Queued(p) && r.next.Some?) || p.AwaitingNext? || p.Handing? || p.Draining? ==> i < |s.order| - 1)
  }

  ghost predicate WordOk(s: Lock)
    requires Wellformed(s)
  {
    && s.entered <= |s.order| && s.reserveLog == s.order[..s.entered]
    && match s.tail
       case None => s.entered == |s.order|
       case Some(u) =>
         |s.order| > 0 && u == s.order[|s.order| - 1] && u < |s.phases| && s.place[u] == |s.order| - 1 && Queued(s.phases[u])
  }

  ghost predicate LineOk(s: Lock) {
    && Wellformed(s) && WordOk(s)
    && (forall i :: s.entered <= i < |s.order| ==> Behind(s, i))
    && (forall t :: 0 <= t < |s.phases| ==> CallerOk(s, t))
  }

  lemma InitLine(threads: nat)
    ensures LineOk(TwoPhaseLock.Init(threads))
  {
  }

  /** What is known of the thread that takes a step, of the one before it, and of the last in line. */
  lemma Around(s: Lock, t: nat)
    requires LineOk(s) && t < |s.phases|
    ensures Wellformed(s) && WordOk(s) && CallerOk(s, t)
    ensures Waiting(s.phases[t]) || s.phases[t].First? ==> s.place[t] < |s.order| && Behind(s, s.place[t])
    ensures Waiting(s.phases[t]) ==>
      var u := s.order[s.place[t] - 1];
      u < |s.phases| && CallerOk(s, u) && WaitsFor(s.phases[t], u) && (Queued(s.phases[u]) || s.phases[u].Draining?)
    ensures s.tail.Some? ==> s.tail.value < |s.phases| && CallerOk(s, s.tail.value)
  {
    assert CallerOk(s, t);
    var i := s.place[t];
    if Waiting(s.phases[t]) && i > s.entered {
      assert Wellformed(s) && i < |s.order|;
      assert Behind(s, i - 1);
    }
  }

  lemma LineAt(s: Lock, i: nat)
    requires LineOk(s) && s.entered <= i < |s.order|
    ensures Wellformed(s) && Behind(s, i) && s.order[i] < |s.phases| && CallerOk(s, s.order[i])
    ensures i > s.entered ==> Behind(s, i - 1)
    ensures i > 0 && s.order[i - 1] < |s.phases| ==> CallerOk(s, s.order[i - 1])
  {
  }

  lemma EntryKeepsSelf(s: Lock, t: nat)
    requires LineOk(s) && t < |s.phases| && (Waiting(s.phases[t]) || s.phases[t].First? || s.phases[t].Reserving?)
    ensures Wellformed(StepOf(s, t)) && |StepOf(s, t).phases| == |s.phases| && CallerOk(StepOf(s, t), t)
  {
    Around(s, t);
    hide LineOk;
  }

  lemma ExitKeepsSelf(s: Lock, t: nat)
    requires LineOk(s) && t < |s.phases| && Past(s.phases[t])
    ensures Wellformed(StepOf(s, t)) && |StepOf(s, t).phases| == |s.phases| && CallerOk(StepOf(s, t), t)
  {
    Around(s, t);
    hide LineOk;
  }

  lemma EnterKeepsOther(s: Lock, t: nat, u: nat)
    requires LineOk(s) && t < |s.phases| && (s.phases[t].Taking? || s.phases[t].First?) && u < |s.phases| && u != t
    ensures Wellformed(StepOf(s, t)) && |StepOf(s, t).phases| == |s.phases| && CallerOk(StepOf(s, t), u)
  {
    Around(s, t);
    Around(s, u);
    hide LineOk;
  }

  lemma LinkKeepsOther(s: Lock, t: nat, u: nat)
    requires LineOk(s) && t < |s.phases| && s.phases[t].Linking? && u < |s.phases| && u != t
    ensures Wellformed(StepOf(s, t)) && |StepOf(s, t).phases| == |s.phases| && CallerOk(StepOf(s, t), u)
  {
    Around(s, t);
    Around(s, u);
    hide LineOk;
  }

  lemma LeaveKeepsOther(s: Lock, t: nat, u: nat)
    requires LineOk(s) && t < |s.phases| && s.phases[t].Leaving? && u < |s.phases| && u != t
    ensures Wellformed(StepOf(s, t)) && |StepOf(s, t).phases| == |s.phases| && CallerOk(StepOf(s, t), u)
  {
    Around(s, t);
    Around(s, u);
    hide LineOk;
  }

  /** The accesses that change nothing for the other callers. */
  lemma QuietEffect(s: Lock, t: nat, u: nat)
    requires Wellformed(s) && t < |s.phases| && !s.phases[t].Idle? && !s.phases[t].Ready? && u < |s.phases| && u != t
    requires !s.phases[t].Taking? && !s.phases[t].First? && !s.phases[t].Linking? && !s.phases[t].Leaving?
    ensures var s' := StepOf(s, t);
      && Wellformed(s') && |s'.phases| == |s.phases|
      && s'.order == s.order && s'.place == s.place && s'.entered == s.entered && s'.tail == s.tail
      && s'.phases[u] == s.phases[u] && s'.records[u] == s.records[u].(commitLock := s'.records[u].commitLock)
  {
  }

  lemma RestKeepsOther(s: Lock, t: nat, u: nat)
    requires LineOk(s) && t < |s.phases| && !s.phases[t].Idle? && !s.phases[t].Ready? && u < |s.phases| && u != t
    requires !s.phases[t].Taking? && !s.phases[t].First? && !s.phases[t].Linking? && !s.phases[t].Leaving?
    ensures Wellformed(StepOf(s, t)) && |StepOf(s, t).phases| == |s.phases| && CallerOk(StepOf(s, t), u)
  {
    Around(s, u);
    QuietEffect(s, t, u);
    hide LineOk, StepOf;
  }

  lemma SkipKeeps(s: Lock, t: nat, u: nat)
    requires LineOk(s) && t < |s.phases| && s.phases[t].Reserved? && u < |s.phases|
    ensures var s' := Do(s, SkipWait(t)); Wellformed(s') && |s'.phases| == |s.phases| && CallerOk(s', u)
  {
    Around(s, t);
    Around(s, u);
    hide LineOk;
  }

  lemma OutsideKeepsSelf(s: Lock, a: Action)
    requires LineOk(s) && Enabled(s, a) && !a.Step?
    ensures Wellformed(Apply(s, a)) && |Apply(s, a).phases| == |s.phases| && CallerOk(Apply(s, a), a.tid)
  {
    Around(s, a.tid);
    hide LineOk;
  }

  lemma OutsideKeepsOther(s: Lock, a: Action, u: nat)
    requires LineOk(s) && Enabled(s, a) && !a.Step? && u < |s.phases| && u != a.tid
    ensures Wellformed(Apply(s, a)) && |Apply(s, a).phases| == |s.phases| && CallerOk(Apply(s, a), u)
  {
    Around(s, u);
    hide LineOk, Behind;
  }

  lemma EnterKeepsBehind(s: Lock, t: nat, i: nat)
    requires LineOk(s) && t < |s.phases| && (s.phases[t].Taking? || s.phases[t].First?) && s.entered < i < |s.order|
    ensures Wellformed(StepOf(s, t)) && StepOf(s, t).order == s.order && Behind(StepOf(s, t), i)
  {
    Around(s, t);
    LineAt(s, i);
    hide LineOk;
  }

  lemma WaitKeepsBehind(s: Lock, t: nat, i: nat)
    requires LineOk(s) && t < |s.phases| && (s.phases[t].Linking? || s.phases[t].Awaiting?) && s.entered <= i < |s.order|
    ensures Wellformed(StepOf(s, t)) && StepOf(s, t).order == s.order && Behind(StepOf(s, t), i)
  {
    Around(s, t);
    LineAt(s, i);
    hide LineOk;
  }

  /** An access made from the reserve section on: what it leaves alone. */
  lemma OwnEffect(s: Lock, t: nat)
    requires Wellformed(s) && t < |s.phases| && (s.phases[t].Reserving? || Past(s.phases[t]))
    ensures var s' := StepOf(s, t);
      && Wellformed(s') && |s'.phases| == |s.phases|
      && s'.order == s.order && s'.place == s.place && s'.entered == s.entered && s'.reserveLog == s.reserveLog
      && s'.phases == s.phases[t := s'.phases[t]] && (s'.tail == s.tail || (s.phases[t].Leaving? && s.tail == Some(t)))
      && (Past(s'.phases[t]) || s'.phases[t].Reserving? ||
          (s'.phases[t].Idle? && ((s.phases[t].Leaving? && s.tail == Some(t) && s'.tail.None?) ||
                                  (s.phases[t].Draining? && s.records[t].reserveLock.Consumed?))))
      && (s'.phases[t].Reserving? ==> s.phases[t].Reserving?)
      && (forall u :: 0 <= u < |s.phases| && u != t ==> s'.records[u].reserveLock == s.records[u].reserveLock)
  {
  }

  lemma OwnKeepsBehind(s: Lock, t: nat, i: nat)
    requires LineOk(s) && t < |s.phases| && (s.phases[t].Reserving? || Past(s.phases[t])) && s.entered <= i < |s.order|
    ensures Wellformed(StepOf(s, t)) && StepOf(s, t).order == s.order && Behind(StepOf(s, t), i)
  {
    Around(s, t);
    LineAt(s, i);
    OwnEffect(s, t);
    hide LineOk, StepOf;
  }

  lemma SkipKeepsBehind(s: Lock, t: nat, i: nat)
    requires LineOk(s) && t < |s.phases| && s.phases[t].Reserved? && s.entered <= i < |s.order|
    ensures var s' := Do(s, SkipWait(t)); Wellformed(s') && s'.order == s.order && Behind(s', i)
  {
    Around(s, t);
    LineAt(s, i);
    hide LineOk;
  }

  lemma BeginKeepsBehind(s: Lock, t: nat, i: nat)
    requires LineOk(s) && Enabled(s, Begin(t)) && s.entered <= i < |s.order|
    ensures Wellformed(Apply(s, Begin(t))) && Apply(s, Begin(t)).order == s.order && Behind(Apply(s, Begin(t)), i)
  {
    LineAt(s, i);
    hide LineOk;
  }

  lemma SwapKeepsBehind(s: Lock, a: Action, i: nat)
    requires LineOk(s) && Enabled(s, a) && (a.SwapIn? || a.TrySwapIn?) && s.entered <= i < |s.order|
    ensures Wellformed(Apply(s, a)) && s.order <= Apply(s, a).order && Behind(Apply(s, a), i)
  {
    Around(s, a.tid);
    LineAt(s, i);
    hide LineOk;
  }

  /** The caller that has just swapped itself in. */
  lemma NewBehind(s: Lock, a: Action)
    requires LineOk(s) && Enabled(s, a) && (a.SwapIn? || a.TrySwapIn?) && |Apply(s, a).order| > |s.order|
    ensures Wellformed(Apply(s, a)) && Behind(Apply(s, a), |s.order|)
  {
    Around(s, a.tid);
    if |s.order| > 0 && s.order[|s.order| - 1] < |s.phases| {
      Around(s, s.order[|s.order| - 1]);
    }
    hide LineOk;
  }

  lemma WordAfterEntry(s: Lock, t: nat)
    requires LineOk(s) && t < |s.phases| && (Waiting(s.phases[t]) || s.phases[t].First?)
    ensures Wellformed(StepOf(s, t)) && WordOk(StepOf(s, t))
  {
    Around(s, t);
    hide LineOk;
  }

  lemma WordAfterOwn(s: Lock, t: nat)
    requires LineOk(s) && t < |s.phases| && (s.phases[t].Reserving? || Past(s.phases[t]))
    ensures Wellformed(StepOf(s, t)) && WordOk(StepOf(s, t))
  {
    Around(s, t);
    OwnEffect(s, t);
    hide LineOk, StepOf, Behind;
  }

  lemma WordAfterOther(s: Lock, b: Access)
    requires LineOk(s) && Wellformed(s) && Possible(s, b) && !(b.Regular? && b.a.Step?)
    ensures Wellformed(Do(s, b)) && WordOk(Do(s, b))
  {
    Around(s, if b.SkipWait? then b.tid else b.a.tid);
    hide LineOk;
  }

  // ---------------------------------------------------------------------------------------------
  // Every access
  // ---------------------------------------------------------------------------------------------

  lemma StepKeepsCaller(s: Lock, t: nat, u: nat)
    requires LineOk(s) && t < |s.phases| && !s.phases[t].Idle? && !s.phases[t].Ready? && u < |s.phases|
    ensures Wellformed(StepOf(s, t)) && |StepOf(s, t).phases| == |s.phases| && CallerOk(StepOf(s, t), u)
  {
    hide LineOk, StepOf, CallerOk;
    var p := s.phases[t];
    if u == t {
      if Past(p) {
        ExitKeepsSelf(s, t);
      } else {
        EntryKeepsSelf(s, t);
      }
    } else if p.Taking? || p.First? {
      EnterKeepsOther(s, t, u);
    } else if p.Linking? {
      LinkKeepsOther(s, t, u);
    } else if p.Leaving? {
      LeaveKeepsOther(s, t, u);
    } else {
      RestKeepsOther(s, t, u);
    }
  }

  lemma StepKeepsPosition(s: Lock, t: nat, i: nat)
    requires LineOk(s) && Wellformed(s) && t < |s.phases| && !s.phases[t].Idle? && !s.phases[t].Ready?
    requires StepOf(s, t).entered <= i < |StepOf(s, t).order|
    ensures Wellformed(StepOf(s, t)) && Behind(StepOf(s, t), i)
  {
    hide LineOk, CallerOk, Behind;
    var p := s.phases[t];
    if p.Taking? || p.First? {
      EnterKeepsBehind(s, t, i);
    } else if p.Linking? || p.Awaiting? {
      WaitKeepsBehind(s, t, i);
    } else {
      hide StepOf;
      OwnEffect(s, t);
      OwnKeepsBehind(s, t, i);
    }
  }

  lemma OtherKeepsPosition(s: Lock, b: Access, i: nat)
    requires LineOk(s) && Wellformed(s) && Possible(s, b) && !(b.Regular? && b.a.Step?)
    requires Do(s, b).entered <= i < |Do(s, b).order|
    ensures Wellformed(Do(s, b)) && Behind(Do(s, b), i)
  {
    hide LineOk, CallerOk, Behind;
    match b
    case SkipWait(t) => SkipKeepsBehind(s, t, i);
    case Regular(a) =>
      if a.Begin? {
        BeginKeepsBehind(s, a.tid, i);
      } else if i < |s.order| {
        SwapKeepsBehind(s, a, i);
      } else {
        NewBehind(s, a);
      }
  }

  /** Every access keeps the order of reserving, whoever cancels without waiting. */
  lemma DoKeepsLine(s: Lock, b: Access)
    requires LineOk(s) && Wellformed(s) && Possible(s, b)
    ensures LineOk(Do(s, b))
  {
    hide CallerOk, Behind, WordOk;
    var s' := Do(s, b);
    if b.Regular? && b.a.Step? {
      var t := b.a.tid;
      hide LineOk, StepOf;
      if s.phases[t].Reserving? || Past(s.phases[t]) {
        WordAfterOwn(s, t);
      } else {
        WordAfterEntry(s, t);
      }
      forall u | 0 <= u < |s'.phases|
        ensures CallerOk(s', u)
      {
        SameThreads(s, b);
        StepKeepsCaller(s, t, u);
      }
      forall i | s'.entered <= i < |s'.order|
        ensures Behind(s', i)
      {
        StepKeepsPosition(s, t, i);
      }
    } else {
      hide LineOk, Do;
      WordAfterOther(s, b);
      forall u | 0 <= u < |s'.phases|
        ensures CallerOk(s', u)
      {
        SameThreads(s, b);
        OtherKeepsCaller(s, b, u);
      }
      forall i | s'.entered <= i < |s'.order|
        ensures Behind(s', i)
      {
        OtherKeepsPosition(s, b, i);
      }
    }
    LineFrom(s');
  }

  lemma OtherKeepsCaller(s: Lock, b: Access, u: nat)
    requires LineOk(s) && Wellformed(s) && Possible(s, b) && !(b.Regular? && b.a.Step?) && u < |s.phases|
    ensures Wellformed(Do(s, b)) && |Do(s, b).phases| == |s.phases| && CallerOk(Do(s, b), u)
  {
    hide LineOk, CallerOk;
    match b
    case SkipWait(t) => SkipKeeps(s, t, u);
    case Regular(a) =>
      if u == a.tid {
        OutsideKeepsSelf(s, a);
      } else {
        OutsideKeepsOther(s, a, u);
      }
  }

  lemma SameThreads(s: Lock, b: Access)
    requires Wellformed(s) && Possible(s, b)
    ensures |Do(s, b).phases| == |s.phases|
  {
  }

  lemma LineFrom(s: Lock)
    requires Wellformed(s) && WordOk(s)
    requires forall i :: s.entered <= i < |s.order| ==> Behind(s, i)
    requires forall t :: 0 <= t < |s.phases| ==> CallerOk(s, t)
    ensures LineOk(s)
  {
  }

  lemma {:induction false} LineOverRun(s: Lock, run: seq<Access>)
    requires LineOk(s) && CanDo(s, run)
    ensures LineOk(EarlyCancel.After(s, run))
    decreases |run|
  {
    hide LineOk, Wellformed, Possible, Do;
    if run != [] {
      LineOverRun(s, run[..|run| - 1]);
      DoKeepsLine(EarlyCancel.After(s, run[..|run| - 1]), run[|run| - 1]);
    }
  }

  /** In every state of every run, however many cancels skip their wait: at most one thread is in a
      reserve section, and the sections are entered in the order of the swaps on the lock word. */
  lemma OneReserverAnyway(threads: nat, run: seq<Access>, t: nat, u: nat)
    requires CanDo(TwoPhaseLock.Init(threads), run)
    ensures var s := EarlyCancel.After(TwoPhaseLock.Init(threads), run);
      && s.reserveLog <= s.order
      && (t < |s.phases| && u < |s.phases| && s.phases[t].Reserving? && s.phases[u].Reserving? ==> t == u)
  {
    var s := EarlyCancel.After(TwoPhaseLock.Init(threads), run);
    InitLine(threads);
    LineOverRun(TwoPhaseLock.Init(threads), run);
    OneInside(s, t, u);
  }

  lemma OneInside(s: Lock, t: nat, u: nat)
    requires LineOk(s)
    ensures s.reserveLog <= s.order
    ensures t < |s.phases| && u < |s.phases| && s.phases[t].Reserving? && s.phases[u].Reserving? ==> t == u
  {
    if t < |s.phases| && u < |s.phases| {
      assert CallerOk(s, t) && CallerOk(s, u);
    }
  }
}
