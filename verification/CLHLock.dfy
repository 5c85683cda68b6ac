/** The CLH queue lock, with nodes recycled from one critical section to the next.

    lock() marks the caller's node, swaps it into Tail and spins on the node that was there before;
    unlock() clears the caller's node and takes over the predecessor's node for next time.  One
    shared access per step, any number of threads.  A failed tryLock of the NUMA variant leaves the
    caller spinning in the same place, so its steps are the same.  `order`, `front`, `place`,
    `owner` and `entered` are history that no step looks at. */
module CLHLock {
  import opened Common

  datatype Phase =
    | Idle
    | Marked                  // own node locked, not yet in the queue
    | Swapped(pred: nat)      // in the queue, about to remember the predecessor in its node
    | Spinning
    | Holding
    | Releasing(pred: nat)    // own node unlocked, about to take over the predecessor's

  datatype Lock = Lock(
    tail: nat, locked: seq<bool>, pred: seq<nat>, myNode: seq<nat>, phases: seq<Phase>,
    order: seq<nat>, front: nat, place: seq<nat>, owner: seq<Option<nat>>, entered: seq<nat>)

  /** A pool of one node more than there are threads; node 0 starts as the tail. */
  function Init(threads: nat): Lock {
    Lock(0, seq(threads + 1, _ => false), seq(threads + 1, _ => 0), seq(threads, t requires 0 <= t => t + 1),
         seq(threads, _ => Idle), [], 0, seq(threads, _ => 0),
         seq(threads + 1, i requires 0 <= i => if i == 0 then None else Some(i - 1)), [])
  }

  predicate PhaseBelow(p: Phase, m: nat) {
    (p.Swapped? || p.Releasing?) ==> p.pred < m
  }

  predicate Wellformed(s: Lock) {
    && |s.locked| == |s.pred| == |s.owner| && |s.myNode| == |s.phases| == |s.place|
    && s.tail < |s.locked|
    && (forall n :: 0 <= n < |s.pred| ==> s.pred[n] < |s.locked|)
    && (forall t :: 0 <= t < |s.myNode| ==> s.myNode[t] < |s.locked|)
    && (forall t :: 0 <= t < |s.phases| ==> PhaseBelow(s.phases[t], |s.locked|))
  }

  /** The next shared access of thread `t`. */
  function Step(s: Lock, t: nat): Lock
    requires Wellformed(s) && t < |s.phases|
  {
    var node := s.myNode[t];
    match s.phases[t]
    case Idle => s.(locked := s.locked[node := true], phases := s.phases[t := Marked])
    case Marked =>
      s.(tail := node, phases := s.phases[t := Swapped(s.tail)],
         order := s.order + [t], place := s.place[t := |s.order|],
         owner := s.owner[s.tail := Some(t)][node := None])
    case Swapped(p) => s.(pred := s.pred[node := p], phases := s.phases[t := Spinning])
    case Spinning =>
      if s.locked[s.pred[node]] then s
      else s.(phases := s.phases[t := Holding], entered := s.entered + [t])
    case Holding =>
      s.(locked := s.locked[node := false], phases := s.phases[t := Releasing(s.pred[node])], front := s.front + 1)
    case Releasing(p) => s.(myNode := s.myNode[t := p], phases := s.phases[t := Idle])
  }

  // ---------------------------------------------------------------------------------------------
  // The invariant
  // ---------------------------------------------------------------------------------------------

  predicate Queued(p: Phase) { p.Swapped? || p.Spinning? || p.Holding? }

  /** The node a thread has to itself: its own until the swap gives it away, from then on the
      predecessor's. */
  function Owned(s: Lock, t: nat): nat
    requires Wellformed(s) && t < |s.phases|
  {
    match s.phases[t]
    case Swapped(p) => p
    case Releasing(p) => p
    case Spinning => s.pred[s.myNode[t]]
    case Holding => s.pred[s.myNode[t]]
    case _ => s.myNode[t]
  }

  /** The nodes are partitioned: the tail belongs to nobody, every other node to exactly one thread. */
  ghost predicate Partition(s: Lock)
    requires Wellformed(s)
  {
    && (forall n :: 0 <= n < |s.owner| ==> OwnerOk(s, n))
    && (forall t :: 0 <= t < |s.phases| ==> ThreadOk(s, t))
  }

  ghost predicate ThreadOk(s: Lock, t: nat)
    requires Wellformed(s) && t < |s.phases|
  {
    s.owner[Owned(s, t)] == Some(t) && (s.phases[t].Marked? ==> s.locked[s.myNode[t]])
  }

  ghost predicate OwnerOk(s: Lock, n: nat)
    requires Wellformed(s) && n < |s.owner|
  {
    if n == s.tail then s.owner[n].None?
    else s.owner[n].Some? && s.owner[n].value < |s.phases| && Owned(s, s.owner[n].value) == n
  }

  /** The waiting line from position `front` on. */
  ghost predicate LineOk(s: Lock)
    requires Wellformed(s)
  {
    && s.front <= |s.order|
    && (forall i :: s.front <= i < |s.order| ==> PlaceOk(s, i))
    && (forall t :: 0 <= t < |s.phases| && Queued(s.phases[t]) ==>
          s.front <= s.place[t] < |s.order| && s.order[s.place[t]] == t)
    && (if s.front < |s.order| then s.order[|s.order| - 1] < |s.phases| && s.tail == s.myNode[s.order[|s.order| - 1]]
        else !s.locked[s.tail])
  }

  /** Whoever stands at position `i` has locked its node and owns, so spins on, the node of the one
      before it; the first in line owns an unlocked node. */
  ghost predicate PlaceOk(s: Lock, i: nat)
    requires Wellformed(s) && i < |s.order|
  {
    var t := s.order[i];
    && t < |s.phases| && Queued(s.phases[t]) && s.place[t] == i && s.locked[s.myNode[t]]
    && (if i == s.front then !s.locked[Owned(s, t)]
        else 0 < i && s.order[i - 1] < |s.phases| && Owned(s, t) == s.myNode[s.order[i - 1]])
    && (s.phases[t].Holding? ==> i == s.front)
  }

  ghost predicate EnteredOk(s: Lock)
    requires Wellformed(s)
  {
    && s.front <= |s.entered| <= |s.order| && s.entered == s.order[..|s.entered|]
    && |s.entered| <= s.front + 1
    && (|s.entered| == s.front + 1 <==>
          s.front < |s.order| && s.order[s.front] < |s.phases| && s.phases[s.order[s.front]].Holding?)
  }

  ghost predicate Inv(s: Lock) {
    Wellformed(s) && Partition(s) && LineOk(s) && EnteredOk(s)
  }

  lemma InitInv(threads: nat)
    ensures Inv(Init(threads))
  {
  }

  lemma At(s: Lock, i: nat)
    requires Inv(s) && s.front <= i < |s.order|
    ensures PlaceOk(s, i) && s.order[i] < |s.phases|
  {
  }

  lemma Facts(s: Lock, t: nat)
    requires Inv(s) && t < |s.phases|
    ensures Wellformed(s) && s.front <= |s.order| && s.owner[Owned(s, t)] == Some(t) && OwnerOk(s, s.tail)
    ensures Owned(s, t) != s.tail && Owned(s, t) < |s.owner| && (s.phases[t].Marked? ==> s.locked[s.myNode[t]])
    ensures Queued(s.phases[t]) ==> s.front <= s.place[t] < |s.order| && s.order[s.place[t]] == t && PlaceOk(s, s.place[t])
    ensures s.front < |s.order| ==> s.order[|s.order| - 1] < |s.phases| && s.tail == s.myNode[s.order[|s.order| - 1]]
    ensures s.front == |s.order| ==> !s.locked[s.tail]
  {
    assert ThreadOk(s, t);
    assert Owned(s, t) < |s.owner|;
  }

  // ---------------------------------------------------------------------------------------------
  // Every step keeps the invariant
  // ---------------------------------------------------------------------------------------------

  /** Two queued threads never have the same node. */
  lemma NodesApart(s: Lock, t: nat, u: nat)
    requires Inv(s) && t < |s.phases| && u < |s.phases| && t != u && Queued(s.phases[t]) && Queued(s.phases[u])
    ensures s.myNode[t] != s.myNode[u]
  {
    hide Inv, Partition, LineOk, EnteredOk, OwnerOk;
    Behind(s, t);
    Behind(s, u);
  }

  /** The node of a queued thread is what the next in line owns, or the tail. */
  lemma Behind(s: Lock, t: nat)
    requires Inv(s) && t < |s.phases| && Queued(s.phases[t])
    ensures s.front <= s.place[t] < |s.order| && s.order[s.place[t]] == t
    ensures if s.place[t] == |s.order| - 1 then s.myNode[t] == s.tail
            else s.order[s.place[t] + 1] < |s.phases| && Queued(s.phases[s.order[s.place[t] + 1]]) &&
                 s.place[s.order[s.place[t] + 1]] == s.place[t] + 1 && s.myNode[t] == Owned(s, s.order[s.place[t] + 1]) && s.myNode[t] != s.tail &&
                 s.owner[s.myNode[t]] == Some(s.order[s.place[t] + 1])
  {
    hide Inv, Partition, LineOk, EnteredOk, OwnerOk;
    Facts(s, t);
    if s.place[t] < |s.order| - 1 {
      At(s, s.place[t] + 1);
      Facts(s, s.order[s.place[t] + 1]);
    }
  }

  lemma OwnedOfStep(s: Lock, s': Lock, t: nat, u: nat)
    requires Inv(s) && t < |s.phases| && u < |s.phases| && s' == Step(s, t) && Wellformed(s')
    ensures Owned(s', u) == if u == t && s.phases[t].Marked? then s.tail else Owned(s, u)
  {
    hide Inv, Partition, LineOk, EnteredOk, OwnerOk;
    Facts(s, t);
    if u != t && Queued(s.phases[t]) && Queued(s.phases[u]) {
      NodesApart(s, t, u);
    }
  }

  lemma WellformedStep(s: Lock, t: nat)
    requires Wellformed(s) && t < |s.phases|
    ensures Wellformed(Step(s, t))
  {
  }

  lemma OwnerOfStep(s: Lock, s': Lock, t: nat, n: nat)
    requires Inv(s) && t < |s.phases| && s' == Step(s, t) && Wellformed(s') && n < |s.owner|
    ensures OwnerOk(s', n)
  {
    hide Inv, Partition, LineOk, EnteredOk, Owned;
    Facts(s, t);
    NodeAt(s, n);
    OwnedOfStep(s, s', t, t);
    if s.owner[n].Some? {
      OwnedOfStep(s, s', t, s.owner[n].value);
    }
    OwnNode(s, t);
  }

  lemma NodeAt(s: Lock, n: nat)
    requires Inv(s) && n < |s.owner|
    ensures OwnerOk(s, n)
  {
  }

  lemma OwnNode(s: Lock, t: nat)
    requires Wellformed(s) && t < |s.phases|
    ensures s.phases[t].Idle? || s.phases[t].Marked? ==> Owned(s, t) == s.myNode[t]
    ensures s.phases[t].Holding? ==> Owned(s, t) == s.pred[s.myNode[t]]
    ensures s.phases[t].Releasing? ==> Owned(s, t) == s.phases[t].pred
  {
  }

  lemma OwnsOfStep(s: Lock, s': Lock, t: nat, u: nat)
    requires Inv(s) && t < |s.phases| && s' == Step(s, t) && Wellformed(s') && u < |s.phases|
    ensures ThreadOk(s', u)
  {
    hide Inv, Partition, LineOk, EnteredOk, Owned;
    Facts(s, t);
    Facts(s, u);
    OwnedOfStep(s, s', t, u);
    OwnNode(s, t);
    OwnNode(s, u);
    if s.phases[t].Holding? {
      Behind(s, t);
    }
  }

  /** A spinning thread is let in exactly when it is first in line. */
  lemma SpinExact(s: Lock, t: nat)
    requires Inv(s) && t < |s.phases| && s.phases[t].Spinning?
    ensures s.locked[s.pred[s.myNode[t]]] <==> s.place[t] != s.front
  {
    hide Inv, Partition, LineOk, EnteredOk;
    Facts(s, t);
    if s.place[t] != s.front {
      At(s, s.place[t] - 1);
    }
  }

  lemma PlaceOfStep(s: Lock, s': Lock, t: nat, i: nat)
    requires Inv(s) && t < |s.phases| && s' == Step(s, t) && Wellformed(s') && s'.front <= i < |s'.order|
    ensures PlaceOk(s', i)
  {
    hide Inv, Partition, LineOk, EnteredOk, Owned, OwnerOk, ThreadOk;
    if i < |s.order| {
      OldPlaceOfStep(s, s', t, i);
    } else {
      Facts(s, t);
      OwnNode(s, t);
      OwnedOfStep(s, s', t, t);
    }
  }

  lemma OldPlaceOfStep(s: Lock, s': Lock, t: nat, i: nat)
    requires Inv(s) && t < |s.phases| && s' == Step(s, t) && Wellformed(s') && s'.front <= i < |s.order|
    ensures s.front <= |s.order| && PlaceOk(s', i)
  {
    hide Inv, Partition, LineOk, EnteredOk, Owned, OwnerOk, ThreadOk;
    Facts(s, t);
    At(s, i);
    var u := s.order[i];
    Facts(s, u);
    OwnedOfStep(s, s', t, u);
    match s.phases[t]
    case Idle => OwnNode(s, t);
    case Spinning => SpinExact(s, t);
    case Holding =>
      NodesApart(s, t, u);
      Behind(s, t);
    case Releasing(_) =>
      if i > s.front {
        At(s, i - 1);
      }
    case _ =>
  }

  lemma QueuedOfStep(s: Lock, s': Lock, t: nat, u: nat)
    requires Inv(s) && t < |s.phases| && s' == Step(s, t) && Wellformed(s') && u < |s.phases| && Queued(s'.phases[u])
    ensures s'.front <= s'.place[u] < |s'.order| && s'.order[s'.place[u]] == u
  {
    hide Inv, Partition, LineOk, EnteredOk, Owned;
    Facts(s, t);
    Facts(s, u);
  }

  lemma EndOfStep(s: Lock, s': Lock, t: nat)
    requires Inv(s) && t < |s.phases| && s' == Step(s, t) && Wellformed(s')
    ensures s'.front <= |s'.order|
    ensures if s'.front < |s'.order| then s'.order[|s'.order| - 1] < |s'.phases| && s'.tail == s'.myNode[s'.order[|s'.order| - 1]]
            else !s'.locked[s'.tail]
  {
    hide Inv, Partition, LineOk, EnteredOk, Owned;
    Facts(s, t);
    OwnNode(s, t);
    if s.phases[t].Holding? {
      Behind(s, t);
    }
    if s.front < |s.order| {
      At(s, |s.order| - 1);
    }
  }

  lemma EnteredOfStep(s: Lock, s': Lock, t: nat)
    requires Inv(s) && t < |s.phases| && s' == Step(s, t) && Wellformed(s')
    ensures EnteredOk(s')
  {
    hide Inv, Partition, LineOk, Owned;
    EnteredAt(s);
    Facts(s, t);
    if s.phases[t].Spinning? {
      SpinExact(s, t);
    }
    if s.front < |s.order| {
      At(s, s.front);
    }
    if s.front + 1 < |s.order| {
      At(s, s.front + 1);
    }
  }

  lemma EnteredAt(s: Lock)
    requires Inv(s)
    ensures EnteredOk(s)
  {
  }

  lemma StepInv(s: Lock, t: nat)
    requires Inv(s) && t < |s.phases|
    ensures Inv(Step(s, t))
  {
    WellformedStep(s, t);
    var s' := Step(s, t);
    EndOfStep(s, s', t);
    EnteredOfStep(s, s', t);
    Sizes(s, t);
    hide Wellformed, OwnerOk, ThreadOk, PlaceOk, EnteredOk, Step, Owned;
    forall n | 0 <= n < |s'.owner|
      ensures OwnerOk(s', n)
    {
      OwnerOfStep(s, s', t, n);
    }
    forall u | 0 <= u < |s'.phases|
      ensures ThreadOk(s', u)
    {
      OwnsOfStep(s, s', t, u);
    }
    forall i | s'.front <= i < |s'.order|
      ensures PlaceOk(s', i)
    {
      PlaceOfStep(s, s', t, i);
    }
    forall u | 0 <= u < |s'.phases| && Queued(s'.phases[u])
      ensures s'.front <= s'.place[u] < |s'.order| && s'.order[s'.place[u]] == u
    {
      QueuedOfStep(s, s', t, u);
    }
  }

  lemma Sizes(s: Lock, t: nat)
    requires Wellformed(s) && t < |s.phases|
    ensures var s' := Step(s, t); |s'.owner| == |s.owner| && |s'.phases| == |s.phases| && |s'.locked| == |s.locked|
  {
  }

  // ---------------------------------------------------------------------------------------------
  // Main results
  // ---------------------------------------------------------------------------------------------

  /** A schedule: which thread makes each next access. */
  ghost function Run(s: Lock, schedule: seq<nat>): Lock
    requires Wellformed(s) && (forall i :: 0 <= i < |schedule| ==> schedule[i] < |s.phases|)
    decreases |schedule|
  {
    if schedule == [] then s
    else
      WellformedStep(s, schedule[0]);
      Run(Step(s, schedule[0]), schedule[1..])
  }

  lemma {:induction false} RunInv(s: Lock, schedule: seq<nat>)
    requires Inv(s) && (forall i :: 0 <= i < |schedule| ==> schedule[i] < |s.phases|)
    ensures Inv(Run(s, schedule)) && |Run(s, schedule).phases| == |s.phases| && |Run(s, schedule).locked| == |s.locked|
    decreases |schedule|
  {
    hide Inv, Wellformed, Step;
    Shape(s);
    if schedule != [] {
      StepInv(s, schedule[0]);
      Sizes(s, schedule[0]);
      RunInv(Step(s, schedule[0]), schedule[1..]);
    }
  }

  ghost predicate HasOwner(s: Lock, n: nat)
    requires Wellformed(s)
  {
    exists t: nat :: t < |s.phases| && Owned(s, t) == n
  }

  /** In every state of every schedule: at most one thread holds the lock; threads have entered in
      the order of their swaps on Tail; every node but the tail is owned by exactly one thread, which
      no other thread spins on or will reuse, although unlock takes over another thread's node. */
  lemma ClhSafety(threads: nat, schedule: seq<nat>)
    requires forall i :: 0 <= i < |schedule| ==> schedule[i] < threads
    ensures var init := Init(threads);
      Wellformed(init) && |init.phases| == threads &&
      var s := Run(init, schedule);
      && Wellformed(s) && |s.phases| == threads && |s.locked| == threads + 1 && |s.owner| == threads + 1
      && (forall t, u :: 0 <= t < threads && 0 <= u < threads && s.phases[t].Holding? && s.phases[u].Holding? ==> t == u)
      && s.entered <= s.order
      && (forall t, u :: 0 <= t < u < threads ==> Owned(s, t) != Owned(s, u))
      && (forall t :: 0 <= t < threads ==> Owned(s, t) != s.tail)
      && (forall n :: 0 <= n <= threads && n != s.tail ==> HasOwner(s, n))
  {
    var init := Init(threads);
    InitInv(threads);
    assert |init.phases| == threads && |init.locked| == threads + 1;
    hide Init, Inv, Run, Partition, LineOk, Owned, Wellformed;
    Shape(init);
    RunInv(init, schedule);
    var s := Run(init, schedule);
    Shape(s);
    EnteredAt(s);
    forall t, u | 0 <= t < threads && 0 <= u < threads && s.phases[t].Holding? && s.phases[u].Holding?
      ensures t == u
    {
      Facts(s, t);
      Facts(s, u);
    }
    forall t | 0 <= t < threads
      ensures Owned(s, t) != s.tail && s.owner[Owned(s, t)] == Some(t)
    {
      Facts(s, t);
    }
    forall n | 0 <= n <= threads && n != s.tail
      ensures HasOwner(s, n)
    {
      NodeAt(s, n);
    }
  }

  lemma Shape(s: Lock)
    requires Inv(s)
    ensures Wellformed(s) && |s.owner| == |s.locked| && |s.myNode| == |s.phases|
  {
  }

  // ---------------------------------------------------------------------------------------------
  // Nobody waits in vain
  // ---------------------------------------------------------------------------------------------

  /** A thread in line waits until it is the first. */
  predicate Blocked(s: Lock, t: nat)
    requires Wellformed(s) && t < |s.phases|
  {
    s.phases[t].Spinning? && s.place[t] != s.front
  }

  /** How many accesses a thread has ahead of it at most until its unlock returns, waiting aside. */
  function Ahead(p: Phase): nat {
    match p
    case Idle => 0
    case Marked => 5
    case Swapped(_) => 4
    case Spinning => 3
    case Holding => 2
    case Releasing(_) => 1
  }

  /** A step changes nothing while the thread waits, lets it in once it is the first in line, and brings
      any other nearer to the end of its unlock. */
  lemma StepAdvances(s: Lock, t: nat)
    requires Inv(s) && t < |s.phases| && !s.phases[t].Idle?
    ensures Wellformed(s) && |Step(s, t).phases| == |s.phases|
    ensures Blocked(s, t) ==> Step(s, t) == s
    ensures !Blocked(s, t) ==> Ahead(Step(s, t).phases[t]) < Ahead(s.phases[t])
    ensures s.phases[t].Spinning? && s.place[t] == s.front ==>
      Step(s, t).phases[t].Holding? && Step(s, t).entered == s.entered + [t]
  {
    hide Inv, Partition, LineOk, EnteredOk;
    Facts(s, t);
    if s.phases[t].Spinning? {
      SpinExact(s, t);
    }
  }

  /** While a thread is anywhere between lock and unlock, some such thread does not wait. */
  lemma NoDeadlock(s: Lock, t: nat) returns (u: nat)
    requires Inv(s) && t < |s.phases| && !s.phases[t].Idle?
    ensures Wellformed(s) && u < |s.phases| && !s.phases[u].Idle? && !Blocked(s, u)
  {
    hide Inv, Partition, LineOk, EnteredOk;
    Facts(s, t);
    u := t;
    if Blocked(s, t) {
      At(s, s.front);
      u := s.order[s.front];
    }
  }
}
