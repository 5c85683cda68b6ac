/** The MCS queue lock: each waiter spins on its own node and is let in by its predecessor.

    lock() swaps the caller's node into the lock word and, if there was one before, links itself
    behind it and spins; unlock() either takes its node out of the lock word or waits for the link
    and clears the successor's flag.  Nodes live on the callers' stacks, so a node is named by its
    thread and used again by the thread's next lock().  One shared access per step.  `order`,
    `front`, `place` and `entered` are history that no step looks at. */
module MCSLock {
  import opened Common

  datatype Phase =
    | Idle
    | Prepared               // own node reset, not yet in the lock word
    | Linking(pred: nat)     // swapped in behind another node, link not stored yet
    | Spinning
    | Holding
    | Leaving                // saw no successor, about to try to empty the lock word
    | AwaitNext              // a successor is on its way
    | Passing(succ: nat)     // about to let the successor in

  datatype Lock = Lock(
    word: Option<nat>, locked: seq<bool>, next: seq<Option<nat>>, phases: seq<Phase>,
    order: seq<nat>, front: nat, place: seq<nat>, entered: seq<nat>)

  function Init(threads: nat): Lock {
    Lock(None, seq(threads, _ => false), seq(threads, _ => None), seq(threads, _ => Idle), [], 0, seq(threads, _ => 0), [])
  }

  predicate PhaseBelow(p: Phase, m: nat) {
    match p
    case Linking(q) => q < m
    case Passing(q) => q < m
    case _ => true
  }

  predicate Wellformed(s: Lock) {
    && |s.locked| == |s.next| == |s.phases| == |s.place|
    && (s.word.Some? ==> s.word.value < |s.phases|)
    && (forall t :: 0 <= t < |s.next| && s.next[t].Some? ==> s.next[t].value < |s.phases|)
    && (forall t :: 0 <= t < |s.phases| ==> PhaseBelow(s.phases[t], |s.phases|))
  }

  /** The next shared access of thread `t`. */
  function Step(s: Lock, t: nat): Lock
    requires Wellformed(s) && t < |s.phases|
  {
    match s.phases[t]
    case Idle => s.(locked := s.locked[t := true], next := s.next[t := None], phases := s.phases[t := Prepared])
    case Prepared =>
      var joined := s.(word := Some(t), order := s.order + [t], place := s.place[t := |s.order|]);
      if s.word.None? then joined.(phases := s.phases[t := Holding], entered := s.entered + [t])
      else joined.(phases := s.phases[t := Linking(s.word.value)])
    case Linking(p) => s.(next := s.next[p := Some(t)], phases := s.phases[t := Spinning])
    case Spinning =>
      if s.locked[t] then s else s.(phases := s.phases[t := Holding], entered := s.entered + [t])
    case Holding =>
      if s.next[t].Some? then s.(phases := s.phases[t := Passing(s.next[t].value)]) else s.(phases := s.phases[t := Leaving])
    case Leaving =>
      if s.word == Some(t) then s.(word := None, front := s.front + 1, phases := s.phases[t := Idle])
      else s.(phases := s.phases[t := AwaitNext])
    case AwaitNext =>
      if s.next[t].Some? then s.(phases := s.phases[t := Passing(s.next[t].value)]) else s
    case Passing(u) =>
      s.(locked := s.locked[u := false], front := s.front + 1, phases := s.phases[t := Idle])
  }

  // ---------------------------------------------------------------------------------------------
  // The invariant
  // ---------------------------------------------------------------------------------------------

  predicate Queued(p: Phase) { !p.Idle? && !p.Prepared? }

  /** In the critical section, or on the way out of it. */
  predicate Inside(p: Phase) { p.Holding? || p.Leaving? || p.AwaitNext? || p.Passing? }

  /** Position `i` of the line: linked from the one before once it spins, and held back exactly
      while it is not first. */
  ghost predicate PlaceOk(s: Lock, i: nat)
    requires Wellformed(s) && i < |s.order|
  {
    var t := s.order[i];
    && t < |s.phases| && Queued(s.phases[t]) && s.place[t] == i
    && (Inside(s.phases[t]) ==> i == s.front)
    && (i > s.front ==>
          && s.locked[t] && s.order[i - 1] < |s.phases|
          && (if s.phases[t].Linking? then s.phases[t].pred == s.order[i - 1] && s.next[s.order[i - 1]].None?
              else s.next[s.order[i - 1]] == Some(t)))
    && (i == s.front ==> !s.phases[t].Linking? && (s.phases[t].Spinning? ==> !s.locked[t]))
    && (s.phases[t].Passing? ==> s.next[t] == Some(s.phases[t].succ))
    && (s.phases[t].AwaitNext? ==> i + 1 < |s.order|)
  }

  ghost predicate ThreadOk(s: Lock, t: nat)
    requires Wellformed(s) && t < |s.phases|
  {
    && (Queued(s.phases[t]) ==> s.front <= s.place[t] < |s.order| && s.order[s.place[t]] == t)
    && (s.phases[t].Prepared? ==> s.locked[t] && s.next[t].None?)
  }

  ghost predicate EndsOk(s: Lock)
    requires Wellformed(s)
  {
    && s.front <= |s.order|
    && (if s.front == |s.order| then s.word.None?
        else s.word == Some(s.order[|s.order| - 1]) && s.order[|s.order| - 1] < |s.next| && s.next[s.order[|s.order| - 1]].None?)
  }

  ghost predicate EnteredOk(s: Lock) {
    && s.front <= |s.entered| <= s.front + 1 && |s.entered| <= |s.order| && s.entered == s.order[..|s.entered|]
    && (|s.entered| == s.front + 1 <==>
          s.front < |s.order| && s.order[s.front] < |s.phases| && Inside(s.phases[s.order[s.front]]))
  }

  ghost predicate Inv(s: Lock) {
    && Wellformed(s) && EndsOk(s) && EnteredOk(s)
    && (forall i :: s.front <= i < |s.order| ==> PlaceOk(s, i))
    && (forall t :: 0 <= t < |s.phases| ==> ThreadOk(s, t))
  }

  lemma InitInv(threads: nat)
    ensures Inv(Init(threads))
  {
  }

  // ---------------------------------------------------------------------------------------------
  // Every step keeps the invariant
  // ---------------------------------------------------------------------------------------------

  lemma Facts(s: Lock, t: nat)
    requires Inv(s) && t < |s.phases|
    ensures Wellformed(s) && EndsOk(s) && ThreadOk(s, t) && PhaseBelow(s.phases[t], |s.phases|)
    ensures |s.locked| == |s.next| == |s.phases| == |s.place|
    ensures Queued(s.phases[t]) ==> PlaceOk(s, s.place[t])
  {
    assert ThreadOk(s, t);
  }

  lemma At(s: Lock, i: nat)
    requires Inv(s) && s.front <= i < |s.order|
    ensures PlaceOk(s, i) && s.order[i] < |s.phases| && ThreadOk(s, s.order[i])
  {
    assert PlaceOk(s, i);
  }

  /** Whoever leaves lets in exactly the next in line. */
  lemma SuccessorIsNext(s: Lock, t: nat)
    requires Inv(s) && t < |s.phases| && Inside(s.phases[t]) && s.next[t].Some?
    ensures s.place[t] == s.front && s.front + 1 < |s.order| && s.next[t] == Some(s.order[s.front + 1])
  {
    hide Inv, Wellformed;
    Facts(s, t);
    if s.front + 1 < |s.order| {
      At(s, s.front + 1);
    }
  }

  lemma WellformedStep(s: Lock, t: nat)
    requires Inv(s) && t < |s.phases|
    ensures Wellformed(Step(s, t))
  {
    Facts(s, t);
    hide Inv, EndsOk, PlaceOk, ThreadOk;
  }

  lemma PlaceOfPass(s: Lock, s': Lock, t: nat, i: nat)
    requires Inv(s) && t < |s.phases| && s' == Step(s, t) && Wellformed(s') && s'.front <= i < |s'.order|
    requires s.phases[t].Linking? || s.phases[t].Passing?
    ensures PlaceOk(s', i)
  {
    hide Inv, Wellformed;
    Facts(s, t);
    if i < |s.order| {
      At(s, i);
    }
    if i > s.front {
      At(s, i - 1);
    }
    if s.phases[t].Passing? {
      SuccessorIsNext(s, t);
      At(s, s.front + 1);
    }
    if s.phases[t].Linking? {
      At(s, s.place[t] - 1);
    }
  }

  lemma PlaceOfOther(s: Lock, s': Lock, t: nat, i: nat)
    requires Inv(s) && t < |s.phases| && s' == Step(s, t) && Wellformed(s') && s'.front <= i < |s'.order|
    requires !(s.phases[t].Linking? || s.phases[t].Passing?)
    ensures PlaceOk(s', i)
  {
    hide Inv, Wellformed;
    Facts(s, t);
    if i < |s.order| {
      At(s, i);
    }
    if i > s.front {
      At(s, i - 1);
    }
    if s.phases[t].AwaitNext? || s.phases[t].Leaving? || s.phases[t].Holding? {
      LastOrNot(s, t);
    }
  }

  lemma PlaceOfStep(s: Lock, s': Lock, t: nat, i: nat)
    requires Inv(s) && t < |s.phases| && s' == Step(s, t) && Wellformed(s') && s'.front <= i < |s'.order|
    ensures PlaceOk(s', i)
  {
    hide Inv, Step, Wellformed, PlaceOk;
    if s.phases[t].Linking? || s.phases[t].Passing? {
      PlaceOfPass(s, s', t, i);
    } else {
      PlaceOfOther(s, s', t, i);
    }
  }

  /** Whoever is inside is first, and the lock word still names it exactly if nobody came after. */
  lemma LastOrNot(s: Lock, t: nat)
    requires Inv(s) && t < |s.phases| && Inside(s.phases[t])
    ensures s.front < |s.order| && s.order[s.front] == t && (s.word == Some(t) <==> s.front + 1 == |s.order|)
    ensures s.next[t].Some? ==> s.front + 1 < |s.order| && s.next[t] == Some(s.order[s.front + 1])
  {
    hide Inv, Wellformed;
    Facts(s, t);
    At(s, |s.order| - 1);
    if s.next[t].Some? {
      SuccessorIsNext(s, t);
    }
  }

  lemma ThreadOfStep(s: Lock, s': Lock, t: nat, u: nat)
    requires Inv(s) && t < |s.phases| && s' == Step(s, t) && Wellformed(s') && u < |s.phases|
    ensures ThreadOk(s', u)
  {
    hide Inv, Wellformed;
    Facts(s, t);
    Facts(s, u);
    if Inside(s.phases[t]) && s.next[t].Some? {
      SuccessorIsNext(s, t);
      At(s, s.front + 1);
    }
    if s.phases[t].Linking? {
      At(s, s.place[t] - 1);
    }
  }

  lemma EndsOfStep(s: Lock, s': Lock, t: nat)
    requires Inv(s) && t < |s.phases| && s' == Step(s, t) && Wellformed(s')
    ensures EndsOk(s')
  {
    hide Inv, Wellformed;
    Facts(s, t);
    if s.front < |s.order| {
      At(s, |s.order| - 1);
    }
    if s.phases[t].Linking? {
      At(s, s.place[t] - 1);
    }
    if Inside(s.phases[t]) && s.next[t].Some? {
      SuccessorIsNext(s, t);
    }
  }

  lemma EnteredOfStep(s: Lock, s': Lock, t: nat)
    requires Inv(s) && t < |s.phases| && s' == Step(s, t) && Wellformed(s')
    ensures EnteredOk(s')
  {
    hide Inv, Wellformed;
    Entered(s);
    Facts(s, t);
    if s.front < |s.order| {
      At(s, s.front);
    }
    if s.front + 1 < |s.order| {
      At(s, s.front + 1);
    }
  }

  lemma Entered(s: Lock)
    requires Inv(s)
    ensures Wellformed(s) && EnteredOk(s)
  {
  }

  lemma StepInv(s: Lock, t: nat)
    requires Inv(s) && t < |s.phases|
    ensures Inv(Step(s, t)) && |Step(s, t).phases| == |s.phases|
  {
    WellformedStep(s, t);
    var s' := Step(s, t);
    EndsOfStep(s, s', t);
    EnteredOfStep(s, s', t);
    assert |s'.phases| == |s.phases|;
    hide Wellformed, PlaceOk, ThreadOk, EndsOk, EnteredOk, Step;
    forall i | s'.front <= i < |s'.order|
      ensures PlaceOk(s', i)
    {
      PlaceOfStep(s, s', t, i);
    }
    forall u | 0 <= u < |s'.phases|
      ensures ThreadOk(s', u)
    {
      ThreadOfStep(s, s', t, u);
    }
  }

  // ---------------------------------------------------------------------------------------------
  // Main results
  // ---------------------------------------------------------------------------------------------

  ghost function Run(s: Lock, schedule: seq<nat>): Lock
    requires Wellformed(s) && Inv(s) && (forall i :: 0 <= i < |schedule| ==> schedule[i] < |s.phases|)
    decreases |schedule|
  {
    if schedule == [] then s
    else
      StepInv(s, schedule[0]);
      Run(Step(s, schedule[0]), schedule[1..])
  }

  lemma {:induction false} RunInv(s: Lock, schedule: seq<nat>)
    requires Wellformed(s) && Inv(s) && (forall i :: 0 <= i < |schedule| ==> schedule[i] < |s.phases|)
    ensures Inv(Run(s, schedule)) && |Run(s, schedule).phases| == |s.phases|
    decreases |schedule|
  {
    hide Inv, Wellformed, Step;
    if schedule != [] {
      StepInv(s, schedule[0]);
      Entered(Step(s, schedule[0]));
      RunInv(Step(s, schedule[0]), schedule[1..]);
    }
  }

  /** In every state of every schedule at most one thread is inside, threads enter in the order of
      their swaps on the lock word, and no thread touches the node of one that is not queued: the
      node of a thread whose unlock returned is its own again. */
  lemma McsSafety(threads: nat, schedule: seq<nat>)
    requires forall i :: 0 <= i < |schedule| ==> schedule[i] < threads
    ensures var init := Init(threads);
      Wellformed(init) && Inv(init) && |init.phases| == threads &&
      var s := Run(init, schedule);
      && Wellformed(s) && |s.phases| == threads
      && (forall t, u :: 0 <= t < threads && 0 <= u < threads && Inside(s.phases[t]) && Inside(s.phases[u]) ==> t == u)
      && s.entered <= s.order
      && (forall t :: 0 <= t < threads && s.phases[t].Linking? ==> s.phases[t].pred < threads && Queued(s.phases[s.phases[t].pred]))
      && (forall t :: 0 <= t < threads && s.phases[t].Passing? ==> s.phases[t].succ < threads && s.phases[s.phases[t].succ].Spinning?)
  {
    var init := Init(threads);
    InitInv(threads);
    assert Wellformed(init) && |init.phases| == threads;
    hide Init, Inv, Run, Wellformed;
    RunInv(init, schedule);
    var s := Run(init, schedule);
    Entered(s);
    forall t, u | 0 <= t < threads && 0 <= u < threads && Inside(s.phases[t]) && Inside(s.phases[u])
      ensures t == u
    {
      LastOrNot(s, t);
      LastOrNot(s, u);
    }
    forall t | 0 <= t < threads && s.phases[t].Linking?
      ensures s.phases[t].pred < threads && Queued(s.phases[s.phases[t].pred])
    {
      Facts(s, t);
      At(s, s.place[t] - 1);
    }
    forall t | 0 <= t < threads && s.phases[t].Passing?
      ensures s.phases[t].succ < threads && s.phases[s.phases[t].succ].Spinning?
    {
      Facts(s, t);
      SuccessorIsNext(s, t);
      At(s, s.front + 1);
    }
  }

  // ---------------------------------------------------------------------------------------------
  // Nobody waits in vain
  // ---------------------------------------------------------------------------------------------

  /** A thread in line waits until it is the first; one on its way out, for its successor's link. */
  ghost predicate Blocked(s: Lock, t: nat)
    requires Wellformed(s) && t < |s.phases|
  {
    || (s.phases[t].Spinning? && s.place[t] != s.front)
    || (s.phases[t].AwaitNext? && s.front + 1 < |s.order| && s.order[s.front + 1] < |s.phases| &&
        s.phases[s.order[s.front + 1]].Linking?)
  }

  /** Where a thread goes next, by its place in the line and where the others in it are, instead of by
      the flags and links it reads. */
  ghost function Follows(s: Lock, t: nat): Phase
    requires Wellformed(s) && t < |s.phases| && s.front <= |s.order|
  {
    var linked := s.front + 1 < |s.order| && s.order[s.front + 1] < |s.phases| && !s.phases[s.order[s.front + 1]].Linking?;
    match s.phases[t]
    case Idle => Prepared
    case Prepared => if s.front == |s.order| then Holding else Linking(s.order[|s.order| - 1])
    case Linking(_) => Spinning
    case Spinning => if s.place[t] == s.front then Holding else Spinning
    case Holding => if linked then Passing(s.order[s.front + 1]) else Leaving
    case Leaving => if s.front + 1 == |s.order| then Idle else AwaitNext
    case AwaitNext => if linked then Passing(s.order[s.front + 1]) else AwaitNext
    case Passing(_) => Idle
  }

  /** A step goes where the line says. */
  lemma StepExact(s: Lock, t: nat)
    requires Inv(s) && t < |s.phases|
    ensures Wellformed(s) && s.front <= |s.order| && Step(s, t).phases == s.phases[t := Follows(s, t)]
  {
    hide Inv, Wellformed;
    Facts(s, t);
    if Queued(s.phases[t]) && s.place[t] > s.front {
      At(s, s.place[t]);
    }
    if Inside(s.phases[t]) {
      LastOrNot(s, t);
      if s.front + 1 < |s.order| {
        At(s, s.front + 1);
      }
    }
    if s.front < |s.order| {
      At(s, |s.order| - 1);
    }
  }

  /** How many accesses a thread has ahead of it at most until its unlock returns, waiting aside. */
  function Ahead(p: Phase): nat {
    match p
    case Idle => 0
    case Prepared => 7
    case Linking(_) => 6
    case Spinning => 5
    case Holding => 4
    case Leaving => 3
    case AwaitNext => 2
    case Passing(_) => 1
  }

  /** A step changes nothing while the thread waits, lets it in once it is the first in line, and brings
      any other nearer to the end of its unlock. */
  lemma StepAdvances(s: Lock, t: nat)
    requires Inv(s) && t < |s.phases| && !s.phases[t].Idle?
    ensures Wellformed(s) && |Step(s, t).phases| == |s.phases|
    ensures Blocked(s, t) ==> Step(s, t) == s
    ensures !Blocked(s, t) ==> Ahead(Step(s, t).phases[t]) < Ahead(s.phases[t])
    ensures s.phases[t].Spinning? && s.place[t] == s.front ==>
      Step(s, t).phases[t].Holding? && Step(s, t).entered == s.entered + [t]
    ensures s.phases[t].Prepared? ==>
      && Step(s, t).order == s.order + [t] && (Step(s, t).phases[t].Holding? <==> s.front == |s.order|)
  {
    hide Inv, Wellformed;
    Facts(s, t);
    if Queued(s.phases[t]) && s.place[t] > s.front {
      At(s, s.place[t]);
    }
    if s.phases[t].AwaitNext? {
      LastOrNot(s, t);
      At(s, s.front + 1);
    }
    if s.front < |s.order| {
      At(s, |s.order| - 1);
    }
  }

  /** While a thread is anywhere between lock and unlock, some such thread does not wait. */
  lemma NoDeadlock(s: Lock, t: nat) returns (u: nat)
    requires Inv(s) && t < |s.phases| && !s.phases[t].Idle?
    ensures Wellformed(s) && u < |s.phases| && !s.phases[u].Idle? && !Blocked(s, u)
  {
    hide Inv, Wellformed;
    Facts(s, t);
    u := t;
    if Blocked(s, u) && s.phases[u].Spinning? {
      At(s, s.front);
      u := s.order[s.front];
    }
    if Blocked(s, u) {
      Facts(s, u);
      u := s.order[s.front + 1];
    }
  }
}
