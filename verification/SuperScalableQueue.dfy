/** The linked queue with a permanent sentinel: lock-free push by one swap on Tail, pop under a lock.

    Between a pusher's swap and its store to the old tail's Next the chain has a gap, and after the
    last node was taken the sentinel's Next may still point to it while new pushes arrive.  The
    machine takes one shared access per step for any number of pushers and poppers.  `order`,
    `front`, `place` and `status` are history that no step looks at, except that a caller pushes
    only a node it owns. */
module SuperScalableQueue {
  import opened Common

  // Node 0 is the sentinel; it is never popped.
  const SENTINEL := 0

  datatype Phase =
    | Idle
    | Prepared(node: nat)               // push: own Next cleared
    | Linking(node: nat, pred: nat)     // push: swapped in, link not stored yet
    | Wanting                           // pop: saw a non-empty queue, waiting for the lock
    | Locked                            // pop: holds the lock, about to check for emptiness
    | AwaitFirst                        // pop: waiting for the first node's link
    | ReadTail
    | Compare(seen: nat)                // pop: read Tail, about to compare it with the first node
    | Swap(node: nat)                   // pop: about to swap Tail from the only node to the sentinel
    | Unlink(node: nat)                 // pop: took the last node, about to clear the sentinel's Next
    | AwaitSecond                       // pop: waiting for the second node's link
    | TakeFirst
    | Advance(node: nat)                // pop: about to move the sentinel's Next past the first node
    | Unlock(result: Option<nat>)       // pop: about to release the lock and return

  /** Who may touch a node. */
  datatype Status =
    | Free
    | Held(tid: nat)      // owned by a pusher that has not swapped yet
    | InFlight(tid: nat)  // in the queue, link not stored yet
    | Linked              // in the queue, link stored
    | Popped(tid: nat)    // taken out, not yet returned

  datatype Queue = Queue(
    tail: nat, next: seq<Option<nat>>, phases: seq<Phase>, holder: Option<nat>,
    order: seq<nat>, front: nat, place: seq<nat>, status: seq<Status>)

  datatype Action =
    | StartPush(tid: nat, node: nat)
    | StartPop(tid: nat)     // the unlocked emptiness test
    | Step(tid: nat)

  predicate NodesBelow(p: Phase, m: nat) {
    match p
    case Prepared(n) => 0 < n < m
    case Linking(n, o) => 0 < n < m && o < m
    case Compare(n) => n < m
    case Swap(n) => 0 < n < m
    case Unlink(n) => 0 < n < m
    case Advance(n) => 0 < n < m
    case Unlock(r) => r.Some? ==> 0 < r.value < m
    case _ => true
  }

  predicate Wellformed(s: Queue) {
    && |s.next| == |s.place| == |s.status| > 0 && s.tail < |s.next|
    && (forall n :: 0 <= n < |s.next| && s.next[n].Some? ==> 0 < s.next[n].value < |s.next|)
    && (forall t :: 0 <= t < |s.phases| ==> NodesBelow(s.phases[t], |s.next|))
  }

  predicate Enabled(s: Queue, a: Action)
    requires Wellformed(s)
  {
    && a.tid < |s.phases|
    && match a
       case StartPush(t, n) => s.phases[t].Idle? && 0 < n < |s.next| && s.status[n].Free?
       case StartPop(t) => s.phases[t].Idle?
       case Step(t) => !s.phases[t].Idle?
  }

  function Goto(s: Queue, t: nat, p: Phase): Queue
    requires t < |s.phases|
  {
    s.(phases := s.phases[t := p])
  }

  function StepOf(s: Queue, t: nat): Queue
    requires Wellformed(s) && t < |s.phases|
  {
    match s.phases[t]
    case Idle => s
    case Prepared(n) =>
      Goto(s, t, Linking(n, s.tail)).(tail := n, order := s.order + [n], place := s.place[n := |s.order|],
        status := s.status[n := InFlight(t)])
    case Linking(n, pred) =>
      Goto(s, t, Idle).(next := s.next[pred := Some(n)], status := s.status[n := Linked])
    case Wanting =>
      if s.holder.None? then Goto(s, t, Locked).(holder := Some(t)) else s
    case Locked =>
      Goto(s, t, if s.tail == SENTINEL then Unlock(None) else AwaitFirst)
    case AwaitFirst =>
      if s.next[SENTINEL].Some? then Goto(s, t, ReadTail) else s
    case ReadTail => Goto(s, t, Compare(s.tail))
    case Compare(seen) =>
      Goto(s, t, if s.next[SENTINEL] == Some(seen) then Swap(seen) else AwaitSecond)
    case Swap(n) =>
      if s.tail == n then
        Goto(s, t, Unlink(n)).(tail := SENTINEL, front := s.front + 1, status := s.status[n := Popped(t)])
      else Goto(s, t, AwaitSecond)
    case Unlink(n) =>
      Goto(s, t, Unlock(Some(n))).(next := if s.next[SENTINEL] == Some(n) then s.next[SENTINEL := None] else s.next)
    case AwaitSecond =>
      if s.next[SENTINEL].Some? && s.next[s.next[SENTINEL].value].Some? then Goto(s, t, TakeFirst) else s
    case TakeFirst =>
      if s.next[SENTINEL].Some? then Goto(s, t, Advance(s.next[SENTINEL].value)) else s
    case Advance(n) =>
      Goto(s, t, Unlock(Some(n))).(next := s.next[SENTINEL := s.next[n]], front := s.front + 1,
        status := s.status[n := Popped(t)])
    case Unlock(r) =>
      Goto(s, t, Idle).(holder := None, status := if r.Some? then s.status[r.value := Free] else s.status)
  }

  function Apply(s: Queue, a: Action): Queue
    requires Wellformed(s) && Enabled(s, a)
  {
    match a
    case StartPush(t, n) =>
      Goto(s, t, Prepared(n)).(next := s.next[n := None], status := s.status[n := Held(t)])
    case StartPop(t) =>
      if s.tail == SENTINEL then s else Goto(s, t, Wanting)
    case Step(t) => StepOf(s, t)
  }

  function Init(threads: nat, nodes: nat): Queue {
    Queue(SENTINEL, seq(nodes + 1, _ => None), seq(threads, _ => Idle), None,
          [], 0, seq(nodes + 1, _ => 0), seq(nodes + 1, _ => Free))
  }

  /** The abstract FIFO queue. */
  function Contents(s: Queue): seq<nat>
    requires s.front <= |s.order|
  {
    s.order[s.front..]
  }

  // ---------------------------------------------------------------------------------------------
  // The invariant
  // ---------------------------------------------------------------------------------------------

  predicate InQueue(st: Status) { st.InFlight? || st.Linked? }

  predicate HasLock(p: Phase) { !p.Idle? && !p.Prepared? && !p.Linking? && !p.Wanting? }

  ghost predicate OrderOk(s: Queue)
    requires Wellformed(s)
  {
    && s.front <= |s.order|
    && (forall i :: s.front <= i < |s.order| ==>
          0 < s.order[i] < |s.next| && s.place[s.order[i]] == i && InQueue(s.status[s.order[i]]))
    && (forall n :: 0 <= n < |s.next| && InQueue(s.status[n]) ==>
          s.front <= s.place[n] < |s.order| && s.order[s.place[n]] == n)
    && s.status[SENTINEL].Free?
    && s.tail == (if s.front == |s.order| then SENTINEL else s.order[|s.order| - 1])
  }

  /** The link into the queued node at position `i`. */
  ghost predicate LinkOk(s: Queue, i: nat)
    requires Wellformed(s) && OrderOk(s) && s.front < i < |s.order|
  {
    s.next[s.order[i - 1]] == if s.status[s.order[i]].Linked? then Some(s.order[i]) else None
  }

  ghost predicate LinksOk(s: Queue)
    requires Wellformed(s) && OrderOk(s)
  {
    && (forall i :: s.front < i < |s.order| ==> LinkOk(s, i))
    && (s.front < |s.order| ==> s.next[s.order[|s.order| - 1]].None?)
  }

  /** The sentinel's Next: the first node once linked, and otherwise empty or left over from the
      node that the lock holder is just taking away. */
  ghost predicate SentinelOk(s: Queue)
    requires Wellformed(s) && OrderOk(s)
  {
    if s.front < |s.order| && s.status[s.order[s.front]].Linked? then
      s.next[SENTINEL] == Some(s.order[s.front])
    else
      s.next[SENTINEL].Some? ==>
        && s.holder.Some? && s.holder.value < |s.phases|
        && s.phases[s.holder.value] == Unlink(s.next[SENTINEL].value)
  }

  ghost predicate ThreadOk(s: Queue, t: nat)
    requires Wellformed(s) && OrderOk(s) && t < |s.phases|
  {
    && (HasLock(s.phases[t]) <==> s.holder == Some(t))
    && match s.phases[t]
       case Prepared(n) => s.status[n] == Held(t) && s.next[n].None?
       case Linking(n, pred) =>
         s.status[n] == InFlight(t) && s.front <= s.place[n] < |s.order| &&
         pred == (if s.place[n] == s.front then SENTINEL else s.order[s.place[n] - 1])
       case AwaitFirst => s.front < |s.order|
       case ReadTail => FirstLinked(s)
       case Compare(seen) => FirstLinked(s) && (seen != s.order[s.front] ==> s.front + 1 < |s.order|)
       case Swap(n) => FirstLinked(s) && n == s.order[s.front]
       case AwaitSecond => FirstLinked(s) && s.front + 1 < |s.order|
       case TakeFirst => SecondLinked(s)
       case Advance(n) => SecondLinked(s) && n == s.order[s.front]
       case Unlink(n) => s.status[n] == Popped(t)
       case Unlock(r) => r.Some? ==> s.status[r.value] == Popped(t)
       case _ => true
  }

  ghost predicate FirstLinked(s: Queue)
    requires Wellformed(s) && OrderOk(s)
  {
    s.front < |s.order| && s.status[s.order[s.front]].Linked?
  }

  ghost predicate SecondLinked(s: Queue)
    requires Wellformed(s) && OrderOk(s)
  {
    FirstLinked(s) && s.front + 1 < |s.order| && s.status[s.order[s.front + 1]].Linked?
  }

  /** A node's owner is where its status says. */
  ghost predicate OwnerOk(s: Queue, n: nat)
    requires Wellformed(s) && n < |s.next|
  {
    match s.status[n]
    case Held(t) => t < |s.phases| && s.phases[t] == Prepared(n)
    case InFlight(t) => t < |s.phases| && s.phases[t].Linking? && s.phases[t].node == n
    case Popped(t) => t < |s.phases| && (s.phases[t] == Unlink(n) || s.phases[t] == Unlock(Some(n)))
    case _ => true
  }

  ghost predicate OwnersOk(s: Queue)
    requires Wellformed(s)
  {
    forall n :: 0 <= n < |s.next| ==> OwnerOk(s, n)
  }

  ghost predicate ThreadsOk(s: Queue)
    requires Wellformed(s) && OrderOk(s)
  {
    && (forall t :: 0 <= t < |s.phases| ==> ThreadOk(s, t))
    && (s.holder.Some? ==> s.holder.value < |s.phases|)
  }

  ghost predicate Inv(s: Queue) {
    Wellformed(s) && OrderOk(s) && LinksOk(s) && SentinelOk(s) && OwnersOk(s) && ThreadsOk(s)
  }

  lemma InitInv(threads: nat, nodes: nat)
    ensures Inv(Init(threads, nodes))
  {
  }

  // ---------------------------------------------------------------------------------------------
  // Every step keeps the invariant
  // ---------------------------------------------------------------------------------------------

  /** What the invariant says of one thread and of the front of the queue. */
  lemma Facts(s: Queue, t: nat)
    requires Inv(s) && t < |s.phases|
    ensures Wellformed(s) && OrderOk(s) && ThreadOk(s, t) && SentinelOk(s) && NodesBelow(s.phases[t], |s.next|)
    ensures s.front <= |s.order| && |s.next| == |s.place| == |s.status| > 0 && s.tail < |s.next|
    ensures s.status[SENTINEL].Free?
    ensures s.tail == (if s.front == |s.order| then SENTINEL else s.order[|s.order| - 1])
    ensures s.front < |s.order| ==> s.tail != SENTINEL && s.next[s.tail].None?
    ensures s.holder.Some? ==> s.holder.value < |s.phases|
  {
  }

  lemma At(s: Queue, i: nat)
    requires Inv(s) && s.front <= i < |s.order|
    ensures Wellformed(s) && OrderOk(s)
    ensures 0 < s.order[i] < |s.next| && s.place[s.order[i]] == i && InQueue(s.status[s.order[i]])
    ensures i > s.front ==> LinkOk(s, i)
    ensures s.next[s.order[i]].Some? ==> i + 1 < |s.order| && s.next[s.order[i]] == Some(s.order[i + 1])
  {
    if i + 1 < |s.order| {
      assert LinkOk(s, i + 1);
    }
  }

  /** The node a queued status belongs to sits at its place. */
  lemma Placed(s: Queue, n: nat)
    requires Inv(s) && n < |s.next|
    ensures Wellformed(s) && OwnerOk(s, n)
    ensures InQueue(s.status[n]) ==> s.front <= s.place[n] < |s.order| && s.order[s.place[n]] == n
  {
  }

  predicate Takes(s: Queue, t: nat)
    requires t < |s.phases|
  {
    s.phases[t].Advance? || (s.phases[t].Swap? && s.tail == s.phases[t].node)
  }

  /** What each step does to one Next field and to one node's status. */
  function NextAfter(s: Queue, t: nat, x: nat): Option<nat>
    requires Wellformed(s) && t < |s.phases| && x < |s.next|
  {
    var p := s.phases[t];
    if p.Linking? && p.pred == x then Some(p.node)
    else if x == SENTINEL && p.Unlink? && s.next[x] == Some(p.node) then None
    else if x == SENTINEL && p.Advance? then s.next[p.node]
    else s.next[x]
  }

  function StatusAfter(s: Queue, t: nat, n: nat): Status
    requires Wellformed(s) && t < |s.phases| && n < |s.next|
  {
    var p := s.phases[t];
    if p.Prepared? && p.node == n then InFlight(t)
    else if p.Linking? && p.node == n then Linked
    else if Takes(s, t) && p.node == n then Popped(t)
    else if p == Unlock(Some(n)) then Free
    else s.status[n]
  }

  lemma NextEffect(s: Queue, s': Queue, t: nat)
    requires Wellformed(s) && t < |s.phases| && s' == StepOf(s, t)
    ensures |s'.next| == |s.next| && forall x :: 0 <= x < |s.next| ==> s'.next[x] == NextAfter(s, t, x)
  {
  }

  lemma StatusEffect(s: Queue, s': Queue, t: nat)
    requires Wellformed(s) && t < |s.phases| && s' == StepOf(s, t)
    ensures |s'.status| == |s.next| && forall n :: 0 <= n < |s.next| ==> s'.status[n] == StatusAfter(s, t, n)
  {
    hide NodesBelow;
    forall n | 0 <= n < |s.next|
      ensures |s'.status| == |s.next| && s'.status[n] == StatusAfter(s, t, n)
    {
      StatusOf(s, s', t, n);
    }
    assert |s'.status| == |s.next| by { StatusOf(s, s', t, 0); }
  }

  lemma StatusOf(s: Queue, s': Queue, t: nat, n: nat)
    requires Wellformed(s) && t < |s.phases| && s' == StepOf(s, t) && n < |s.next|
    ensures |s'.status| == |s.next| && s'.status[n] == StatusAfter(s, t, n)
  {
  }

  /** Where each step stores: Next fields, node ownership, queue history. */
  lemma Effect(s: Queue, s': Queue, t: nat)
    requires Wellformed(s) && t < |s.phases| && s' == StepOf(s, t)
    ensures |s'.phases| == |s.phases| && s'.phases == s.phases[t := s'.phases[t]]
    ensures |s'.next| == |s.next| == |s'.place| == |s'.status|
    ensures s'.front == if Takes(s, t) then s.front + 1 else s.front
    ensures s'.holder ==
      if s.phases[t].Wanting? && s.holder.None? then Some(t) else if s.phases[t].Unlock? then None else s.holder
    ensures var p := s.phases[t];
      && (if p.Prepared? then s'.order == s.order + [p.node] && s'.place == s.place[p.node := |s.order|] && s'.tail == p.node
          else s'.order == s.order && s'.place == s.place && s'.tail == if Takes(s, t) && p.Swap? then SENTINEL else s.tail)
      && (Takes(s, t) && p.Swap? ==> s'.phases[t] == Unlink(p.node))
    ensures forall x :: 0 <= x < |s.next| ==> s'.next[x] == NextAfter(s, t, x)
    ensures forall n :: 0 <= n < |s.next| ==> s'.status[n] == StatusAfter(s, t, n)
  {
    hide NextAfter, StatusAfter;
    NextEffect(s, s', t);
    StatusEffect(s, s', t);
  }

  lemma PhaseBelow(s: Queue, t: nat)
    requires Inv(s) && t < |s.phases|
    ensures NodesBelow(StepOf(s, t).phases[t], |s.next|)
  {
    hide Inv, OrderOk, SentinelOk, ThreadOk;
    Facts(s, t);
  }

  lemma WellformedStep(s: Queue, t: nat)
    requires Inv(s) && t < |s.phases|
    ensures Wellformed(StepOf(s, t))
  {
    hide Inv, OrderOk, SentinelOk, StepOf, NodesBelow, ThreadOk;
    Facts(s, t);
    PhaseBelow(s, t);
    Effect(s, StepOf(s, t), t);
  }

  lemma OrderKept(s: Queue, s': Queue)
    requires Wellformed(s) && OrderOk(s) && Wellformed(s') && |s'.next| == |s.next|
    requires s'.order == s.order && s'.place == s.place && s'.front == s.front && s'.tail == s.tail
    requires forall n :: 0 <= n < |s.next| ==> InQueue(s'.status[n]) == InQueue(s.status[n])
    requires s'.status[SENTINEL].Free?
    ensures OrderOk(s')
  {
  }

  lemma OrderPushed(s: Queue, s': Queue, n: nat)
    requires Wellformed(s) && OrderOk(s) && Wellformed(s') && |s'.next| == |s.next| && 0 < n < |s.next|
    requires s'.order == s.order + [n] && s'.place == s.place[n := |s.order|] && s'.front == s.front && s'.tail == n
    requires !InQueue(s.status[n]) && InQueue(s'.status[n]) && s'.status == s.status[n := s'.status[n]]
    ensures OrderOk(s')
  {
  }

  lemma OrderPopped(s: Queue, s': Queue, n: nat)
    requires Wellformed(s) && OrderOk(s) && Wellformed(s') && |s'.next| == |s.next|
    requires s'.order == s.order && s'.place == s.place && s.front < |s.order| && s'.front == s.front + 1
    requires n == s.order[s.front] && !InQueue(s'.status[n]) && s'.status == s.status[n := s'.status[n]]
    requires s'.tail == if s.front + 1 == |s.order| then SENTINEL else s.tail
    ensures OrderOk(s')
  {
  }

  lemma OrderOfStep(s: Queue, t: nat)
    requires Inv(s) && t < |s.phases|
    ensures Wellformed(StepOf(s, t)) && OrderOk(StepOf(s, t))
  {
    hide Inv, Wellformed, OrderOk, StepOf, SentinelOk;
    Facts(s, t);
    WellformedStep(s, t);
    var s', p := StepOf(s, t), s.phases[t];
    Effect(s, s', t);
    if s.front < |s.order| {
      At(s, s.front);
      At(s, |s.order| - 1);
    }
    if p.Prepared? {
      OrderPushed(s, s', p.node);
    } else if Takes(s, t) {
      OrderPopped(s, s', p.node);
    } else {
      OrderKept(s, s');
    }
  }

  /** Where the node that a thread is still linking sits: behind the node it will be linked from. */
  ghost predicate PusherPlaced(s: Queue, t: nat)
    requires t < |s.phases|
  {
    s.phases[t].Linking? ==>
      var n, pred := s.phases[t].node, s.phases[t].pred;
      && n < |s.place| && s.front <= s.place[n] < |s.order| && s.order[s.place[n]] == n
      && (if s.place[n] == s.front then pred == SENTINEL
          else pred == s.order[s.place[n] - 1] && 0 < pred < |s.place| && s.place[pred] == s.place[n] - 1 &&
               pred < |s.status| && InQueue(s.status[pred]))
  }

  lemma Pushing(s: Queue, t: nat)
    requires Inv(s) && t < |s.phases|
    ensures PusherPlaced(s, t)
  {
    if s.phases[t].Linking? {
      assert ThreadOk(s, t) && NodesBelow(s.phases[t], |s.next|);
    }
  }

  lemma LinkOfStep(s: Queue, s': Queue, t: nat, i: nat)
    requires Inv(s) && t < |s.phases| && s' == StepOf(s, t) && Wellformed(s') && OrderOk(s')
    requires s'.front < i < |s'.order|
    ensures LinkOk(s', i)
  {
    hide Inv, Wellformed, OrderOk, StepOf, SentinelOk;
    Facts(s, t);
    Effect(s, s', t);
    At(s, i - 1);
    if i < |s.order| {
      At(s, i);
    }
    Pushing(s, t);
  }

  lemma LastOfStep(s: Queue, s': Queue, t: nat)
    requires Inv(s) && t < |s.phases| && s' == StepOf(s, t) && Wellformed(s') && OrderOk(s')
    ensures s'.front < |s'.order| ==> s'.order[|s'.order| - 1] < |s'.next| && s'.next[s'.order[|s'.order| - 1]].None?
  {
    hide Inv, Wellformed, OrderOk, StepOf, SentinelOk;
    Facts(s, t);
    Effect(s, s', t);
    Pushing(s, t);
    if s.front < |s.order| {
      At(s, |s.order| - 1);
    }
  }

  lemma SentinelOfStep(s: Queue, s': Queue, t: nat)
    requires Inv(s) && t < |s.phases| && s' == StepOf(s, t) && Wellformed(s') && OrderOk(s')
    ensures SentinelOk(s')
  {
    hide Inv, Wellformed, OrderOk, StepOf, SentinelOk, ThreadOk;
    if Takes(s, t) {
      SentinelAfterTake(s, s', t);
    } else {
      SentinelStays(s, s', t);
    }
  }

  lemma SentinelAfterTake(s: Queue, s': Queue, t: nat)
    requires Inv(s) && t < |s.phases| && s' == StepOf(s, t) && Wellformed(s') && OrderOk(s') && Takes(s, t)
    ensures SentinelOk(s')
  {
    hide Inv, Wellformed, OrderOk, StepOf;
    Facts(s, t);
    Effect(s, s', t);
    At(s, s.front);
    if s.front + 1 < |s.order| {
      At(s, s.front + 1);
    }
  }

  lemma SentinelStays(s: Queue, s': Queue, t: nat)
    requires Inv(s) && t < |s.phases| && s' == StepOf(s, t) && Wellformed(s') && OrderOk(s') && !Takes(s, t)
    ensures SentinelOk(s')
  {
    hide Inv, Wellformed, OrderOk, StepOf;
    Facts(s, t);
    Effect(s, s', t);
    Pushing(s, t);
    if s.front < |s.order| {
      At(s, s.front);
    }
  }

  lemma OwnerOfStep(s: Queue, s': Queue, t: nat, n: nat)
    requires Inv(s) && t < |s.phases| && s' == StepOf(s, t) && Wellformed(s') && OrderOk(s')
    requires n < |s.next|
    ensures n < |s'.next| && OwnerOk(s', n)
  {
    hide Inv, Wellformed, OrderOk, SentinelOk, NextAfter, NodesBelow;
    Facts(s, t);
    Effect(s, s', t);
    Placed(s, n);
  }

  /** A pusher that is still linking keeps its place and its predecessor, whoever else steps. */
  lemma PusherStays(s: Queue, s': Queue, t: nat, u: nat)
    requires Inv(s) && t < |s.phases| && s' == StepOf(s, t) && Wellformed(s') && OrderOk(s')
    requires u < |s.phases| && u != t && s.phases[u].Linking?
    ensures var n := s.phases[u].node;
      && n < |s.place| && s.front <= s.place[n] < |s.order| && s.order[s.place[n]] == n && s.status[n] == InFlight(u)
      && |s'.phases| == |s.phases| && s'.phases[u] == s.phases[u]
      && n < |s'.place| && s'.place[n] == s.place[n] && n < |s'.status| && s'.status[n] == InFlight(u)
      && s.order <= s'.order && s.front <= s'.front <= s.front + 1
      && (s'.front > s.front ==> Takes(s, t))
  {
    hide Inv, Wellformed, OrderOk, StepOf, SentinelOk;
    Facts(s, t);
    Facts(s, u);
    Effect(s, s', t);
    Pushing(s, u);
    if s.front < |s.order| {
      At(s, s.front);
    }
  }

  /** The first node is taken only after it was linked, and the last only if nobody pushes behind it. */
  lemma TakenIsLinked(s: Queue, t: nat)
    requires Inv(s) && t < |s.phases| && Takes(s, t)
    ensures s.front < |s.order| && s.order[s.front] < |s.status| && s.status[s.order[s.front]].Linked?
    ensures s.front + 1 < |s.order| ==>
      s.phases[t].Advance? && s.order[s.front + 1] < |s.status| && s.status[s.order[s.front + 1]].Linked?
  {
    hide Inv, Wellformed, OrderOk, StepOf, SentinelOk;
    Facts(s, t);
    if s.front + 1 < |s.order| {
      At(s, s.front + 1);
      At(s, |s.order| - 1);
      if s.front < |s.order| {
        At(s, s.front);
      }
    }
  }

  lemma OtherPusher(s: Queue, s': Queue, t: nat, u: nat)
    requires Inv(s) && t < |s.phases| && s' == StepOf(s, t) && Wellformed(s') && OrderOk(s')
    requires u < |s.phases| && u != t && s.phases[u].Linking?
    ensures u < |s'.phases| && ThreadOk(s', u)
  {
    hide Inv, Wellformed, OrderOk, StepOf, SentinelOk;
    Facts(s, t);
    Facts(s, u);
    Effect(s, s', t);
    Pushing(s, u);
    PusherStays(s, s', t, u);
    if Takes(s, t) {
      TakenIsLinked(s, t);
    }
  }

  lemma OtherPreparer(s: Queue, s': Queue, t: nat, u: nat)
    requires Inv(s) && t < |s.phases| && s' == StepOf(s, t) && Wellformed(s') && OrderOk(s')
    requires u < |s.phases| && u != t && !HasLock(s.phases[u]) && !s.phases[u].Linking?
    ensures u < |s'.phases| && ThreadOk(s', u)
  {
    hide Inv, Wellformed, OrderOk, StepOf, SentinelOk;
    Facts(s, t);
    Facts(s, u);
    Effect(s, s', t);
    Pushing(s, t);
  }

  lemma OtherPopper(s: Queue, s': Queue, t: nat, u: nat)
    requires Inv(s) && t < |s.phases| && s' == StepOf(s, t) && Wellformed(s') && OrderOk(s')
    requires u < |s.phases| && u != t && HasLock(s.phases[u])
    ensures u < |s'.phases| && ThreadOk(s', u)
  {
    hide Inv, Wellformed, OrderOk, StepOf, SentinelOk, InQueue;
    Facts(s, t);
    Facts(s, u);
    Effect(s, s', t);
  }

  lemma ThreadOfStep(s: Queue, s': Queue, t: nat, u: nat)
    requires Inv(s) && t < |s.phases| && s' == StepOf(s, t) && Wellformed(s') && OrderOk(s')
    requires u < |s.phases|
    ensures u < |s'.phases| && ThreadOk(s', u)
  {
    hide Inv, Wellformed, OrderOk, StepOf, ThreadOk;
    if u == t {
      if !HasLock(s.phases[t]) {
        PusherOfStep(s, s', t);
      } else if s.phases[t].Locked? || s.phases[t].AwaitFirst? || s.phases[t].ReadTail? || s.phases[t].Compare? || s.phases[t].Swap? {
        WaitsForFirst(s, s', t);
      } else if s.phases[t].Advance? || s.phases[t].Unlink? || s.phases[t].Unlock? {
        Returns(s, s', t);
      } else {
        WaitsForSecond(s, s', t);
      }
    } else if s.phases[u].Linking? {
      OtherPusher(s, s', t, u);
    } else if HasLock(s.phases[u]) {
      OtherPopper(s, s', t, u);
    } else {
      OtherPreparer(s, s', t, u);
    }
  }

  lemma PusherOfStep(s: Queue, s': Queue, t: nat)
    requires Inv(s) && t < |s.phases| && s' == StepOf(s, t) && Wellformed(s') && OrderOk(s')
    requires !HasLock(s.phases[t])
    ensures t < |s'.phases| && ThreadOk(s', t)
  {
    hide Inv, Wellformed, OrderOk, SentinelOk;
    Facts(s, t);
  }

  lemma WaitsForFirst(s: Queue, s': Queue, t: nat)
    requires Inv(s) && t < |s.phases| && s' == StepOf(s, t) && Wellformed(s') && OrderOk(s')
    requires var p := s.phases[t]; p.Locked? || p.AwaitFirst? || p.ReadTail? || p.Compare? || p.Swap?
    ensures t < |s'.phases| && ThreadOk(s', t)
  {
    hide Inv, Wellformed, OrderOk;
    Facts(s, t);
    if s.front < |s.order| {
      At(s, s.front);
    }
    if s.front + 1 < |s.order| {
      At(s, s.front + 1);
    }
  }

  /** From taking a node to returning it. */
  lemma Returns(s: Queue, s': Queue, t: nat)
    requires Inv(s) && t < |s.phases| && s' == StepOf(s, t) && Wellformed(s') && OrderOk(s')
    requires s.phases[t].Advance? || s.phases[t].Unlink? || s.phases[t].Unlock?
    ensures t < |s'.phases| && ThreadOk(s', t)
  {
    hide Inv, Wellformed, OrderOk, SentinelOk;
    Facts(s, t);
  }

  lemma WaitsForSecond(s: Queue, s': Queue, t: nat)
    requires Inv(s) && t < |s.phases| && s' == StepOf(s, t) && Wellformed(s') && OrderOk(s')
    requires var p := s.phases[t]; p.AwaitSecond? || p.TakeFirst?
    ensures t < |s'.phases| && ThreadOk(s', t)
  {
    hide Inv, Wellformed, OrderOk, InQueue;
    Facts(s, t);
    if s.front < |s.order| {
      At(s, s.front);
    }
    if s.front + 1 < |s.order| {
      At(s, s.front + 1);
    }
  }

  lemma HolderBelow(s: Queue, s': Queue, t: nat)
    requires Inv(s) && t < |s.phases| && s' == StepOf(s, t)
    ensures s'.holder.Some? ==> s'.holder.value < |s'.phases|
  {
    hide Inv, Wellformed, OrderOk, StepOf, ThreadOk, SentinelOk;
    Facts(s, t);
    Effect(s, s', t);
  }

  lemma SameSizes(s: Queue, s': Queue, t: nat)
    requires Wellformed(s) && t < |s.phases| && s' == StepOf(s, t)
    ensures |s'.phases| == |s.phases| && |s'.next| == |s.next|
  {
    hide StepOf;
    Effect(s, s', t);
  }

  lemma StepOfInv(s: Queue, t: nat)
    requires Inv(s) && t < |s.phases|
    ensures Inv(StepOf(s, t))
  {
    OrderOfStep(s, t);
    hide Wellformed, OrderOk, LinkOk, OwnerOk, ThreadOk, SentinelOk, StepOf, NextAfter, StatusAfter, Takes;
    var s' := StepOf(s, t);
    Facts(s, t);
    hide Inv, LinksOk, OwnersOk, ThreadsOk;
    HolderBelow(s, s', t);
    SameSizes(s, s', t);
    SentinelOfStep(s, s', t);
    LastOfStep(s, s', t);
    forall i | s'.front < i < |s'.order|
      ensures LinkOk(s', i)
    {
      LinkOfStep(s, s', t, i);
    }
    forall n | 0 <= n < |s'.next|
      ensures OwnerOk(s', n)
    {
      OwnerOfStep(s, s', t, n);
    }
    forall u | 0 <= u < |s'.phases|
      ensures ThreadOk(s', u)
    {
      ThreadOfStep(s, s', t, u);
    }
    Gather(s');
  }

  lemma Gather(s: Queue)
    requires Wellformed(s) && OrderOk(s) && SentinelOk(s) && (s.holder.Some? ==> s.holder.value < |s.phases|)
    requires forall i :: s.front < i < |s.order| ==> LinkOk(s, i)
    requires s.front < |s.order| ==> s.next[s.order[|s.order| - 1]].None?
    requires forall n :: 0 <= n < |s.next| ==> OwnerOk(s, n)
    requires forall u :: 0 <= u < |s.phases| ==> ThreadOk(s, u)
    ensures Inv(s)
  {
    hide Wellformed, OrderOk, LinkOk, OwnerOk, ThreadOk, SentinelOk;
  }

  /** A call begins: a push clears the Next of a node that only its owner can reach. */
  ghost predicate Begins(s: Queue, s': Queue, t: nat)
    requires Wellformed(s) && t < |s.phases|
  {
    && s.phases[t].Idle?
    && s'.tail == s.tail && s'.holder == s.holder && s'.order == s.order && s'.front == s.front && s'.place == s.place
    && |s'.phases| == |s.phases| && s'.phases == s.phases[t := s'.phases[t]]
    && match s'.phases[t]
       case Prepared(n) =>
         0 < n < |s.next| && s.status[n].Free? && s'.next == s.next[n := None] && s'.status == s.status[n := Held(t)]
       case Wanting => s'.next == s.next && s'.status == s.status
       case _ => false
  }

  lemma BeginsOrder(s: Queue, s': Queue, t: nat)
    requires Inv(s) && t < |s.phases| && Begins(s, s', t)
    ensures Wellformed(s') && OrderOk(s')
  {
    hide LinksOk, OwnersOk, ThreadsOk, SentinelOk;
    OrderKept(s, s');
  }

  lemma BeginsLinks(s: Queue, s': Queue, t: nat, i: nat)
    requires Inv(s) && t < |s.phases| && Begins(s, s', t) && Wellformed(s') && OrderOk(s')
    ensures s.front < i < |s.order| ==> LinkOk(s', i)
    ensures s.front < |s.order| ==> s'.next[s'.order[|s'.order| - 1]].None?
    ensures SentinelOk(s')
  {
    hide Inv, Wellformed, OrderOk;
    Facts(s, t);
    if s.front < i < |s.order| {
      At(s, i);
      At(s, i - 1);
    }
    if s.front < |s.order| {
      At(s, s.front);
      At(s, |s.order| - 1);
    }
  }

  lemma BeginsThreads(s: Queue, s': Queue, t: nat, u: nat)
    requires Inv(s) && t < |s.phases| && Begins(s, s', t) && Wellformed(s') && OrderOk(s') && u < |s.phases|
    ensures ThreadOk(s', u)
  {
    hide Inv, Wellformed, OrderOk;
    Facts(s, t);
    Facts(s, u);
  }

  lemma BeginsOwners(s: Queue, s': Queue, t: nat, n: nat)
    requires Inv(s) && t < |s.phases| && Begins(s, s', t) && Wellformed(s') && OrderOk(s') && n < |s.next|
    ensures OwnerOk(s', n)
  {
    hide Inv, Wellformed, OrderOk;
    Facts(s, t);
    Placed(s, n);
  }

  lemma BeginsInv(s: Queue, s': Queue, t: nat)
    requires Inv(s) && t < |s.phases| && Begins(s, s', t)
    ensures Inv(s')
  {
    BeginsOrder(s, s', t);
    Facts(s, t);
    hide Wellformed, OrderOk, LinkOk, OwnerOk, ThreadOk, SentinelOk;
    BeginsLinks(s, s', t, 0);
    forall i | s'.front < i < |s'.order|
      ensures LinkOk(s', i)
    {
      BeginsLinks(s, s', t, i);
    }
    forall n | 0 <= n < |s'.next|
      ensures OwnerOk(s', n)
    {
      BeginsOwners(s, s', t, n);
    }
    forall u | 0 <= u < |s'.phases|
      ensures ThreadOk(s', u)
    {
      BeginsThreads(s, s', t, u);
    }
  }

  lemma ApplyInv(s: Queue, a: Action)
    requires Inv(s) && Enabled(s, a)
    ensures Inv(Apply(s, a))
  {
    hide Inv, Wellformed, StepOf;
    Facts(s, a.tid);
    match a
    case StartPush(t, _) => BeginsInv(s, Apply(s, a), t);
    case StartPop(t) =>
      if s.tail != SENTINEL {
        BeginsInv(s, Apply(s, a), t);
      }
    case Step(t) => StepOfInv(s, t);
  }

  // ---------------------------------------------------------------------------------------------
  // Refinement of an atomic FIFO queue, and whole runs
  // ---------------------------------------------------------------------------------------------

  /** What a step does to the atomic queue. */
  datatype Linearized = Nothing | Enqueue(node: nat) | Dequeue(node: nat) | Empty

  /** Linearization: a push at its swap; a pop of the only node at its swap, of any other first node
      at its store to the sentinel's Next; a refusal at the test that saw Tail at the sentinel. */
  function EffectOf(s: Queue, a: Action): Linearized
    requires Wellformed(s) && Enabled(s, a)
  {
    match a
    case StartPush(_, _) => Nothing
    case StartPop(_) => if s.tail == SENTINEL then Empty else Nothing
    case Step(t) =>
      match s.phases[t]
      case Prepared(n) => Enqueue(n)
      case Locked => if s.tail == SENTINEL then Empty else Nothing
      case Swap(n) => if s.tail == n then Dequeue(n) else Nothing
      case Advance(n) => Dequeue(n)
      case _ => Nothing
  }

  lemma FrontBound(s: Queue)
    requires Inv(s)
    ensures Wellformed(s) && OrderOk(s) && s.front <= |s.order|
  {
  }

  /** The effects on the abstract contents, one lemma per linearization point. */
  lemma EnqueueEffect(s: Queue, t: nat)
    requires Inv(s) && t < |s.phases| && s.phases[t].Prepared?
    ensures StepOf(s, t).front == s.front <= |s.order| && StepOf(s, t).order == s.order + [s.phases[t].node]
    ensures s.phases[t].node !in Contents(s)
  {
    hide Inv, Wellformed, OrderOk, SentinelOk;
    FrontBound(s);
    Facts(s, t);
    forall i | s.front <= i < |s.order|
      ensures s.order[i] != s.phases[t].node
    {
      At(s, i);
    }
  }

  lemma DequeueEffect(s: Queue, t: nat)
    requires Inv(s) && t < |s.phases|
    requires (s.phases[t].Swap? && s.tail == s.phases[t].node) || s.phases[t].Advance?
    ensures s.front < |s.order| && s.order[s.front] == s.phases[t].node
    ensures StepOf(s, t).front == s.front + 1 && StepOf(s, t).order == s.order
    ensures StepOf(s, t).phases[t] == Unlink(s.phases[t].node) || StepOf(s, t).phases[t] == Unlock(Some(s.phases[t].node))
  {
    hide Inv, Wellformed, OrderOk, SentinelOk;
    FrontBound(s);
    Facts(s, t);
  }

  lemma EmptyEffect(s: Queue)
    requires Inv(s) && s.tail == SENTINEL
    ensures s.front == |s.order|
  {
  }

  lemma SilentEffect(s: Queue, a: Action)
    requires Inv(s) && Enabled(s, a) && EffectOf(s, a) in {Nothing, Empty}
    ensures Apply(s, a).front == s.front && Apply(s, a).order == s.order
  {
    hide Inv, OrderOk, SentinelOk;
  }

  /** Every step is a step of the atomic queue: pushes append, pops take the first element and will
      return exactly it, -EWOULDBLOCK is decided only while the queue is empty. */
  lemma RefinesFifo(s: Queue, a: Action)
    requires Inv(s) && Enabled(s, a)
    ensures Inv(Apply(s, a)) && s.front <= |s.order| && Apply(s, a).front <= |Apply(s, a).order|
    ensures match EffectOf(s, a)
      case Nothing => Contents(Apply(s, a)) == Contents(s)
      case Enqueue(n) => Contents(Apply(s, a)) == Contents(s) + [n] && n !in Contents(s)
      case Dequeue(n) => Contents(s) == [n] + Contents(Apply(s, a)) &&
                         (Apply(s, a).phases[a.tid] == Unlink(n) || Apply(s, a).phases[a.tid] == Unlock(Some(n)))
      case Empty => Contents(s) == [] && Contents(Apply(s, a)) == []
  {
    hide Inv, Wellformed, StepOf, OrderOk;
    FrontBound(s);
    ApplyInv(s, a);
    FrontBound(Apply(s, a));
    match EffectOf(s, a)
    case Enqueue(_) => EnqueueEffect(s, a.tid);
    case Dequeue(n) =>
      DequeueEffect(s, a.tid);
      assert s.order[s.front..] == [n] + s.order[s.front + 1..];
    case Empty =>
      EmptyEffect(s);
      SilentEffect(s, a);
    case Nothing => SilentEffect(s, a);
  }

  /** A thread that is not inside a call may push any free node, or pop. */
  lemma MayStart(s: Queue, t: nat, n: nat)
    requires Inv(s) && t < |s.phases| && s.phases[t].Idle?
    ensures Wellformed(s) && Enabled(s, StartPop(t))
    ensures 0 < n < |s.status| && s.status[n].Free? ==>
      && Enabled(s, StartPush(t, n))
      && var s' := Apply(s, StartPush(t, n));
        |s'.phases| == |s.phases| && s'.phases[t] == Prepared(n) && s'.order == s.order && s'.front == s.front
  {
    hide Inv, OrderOk, SentinelOk;
    Facts(s, t);
  }

  /** A pop refuses exactly where it finds the queue empty: at its first test, or at the one under the
      lock.  No other access of any thread leads to a refusal. */
  lemma RefusesExactly(s: Queue, a: Action)
    requires Inv(s) && Enabled(s, a)
    ensures s.front <= |s.order| && |Apply(s, a).phases| == |s.phases|
    ensures a.StartPop? ==> (Apply(s, a).phases[a.tid] == if Contents(s) == [] then Idle else Wanting)
    ensures forall t :: 0 <= t < |s.phases| ==>
      (s.phases[t] != Unlock(None) && Apply(s, a).phases[t] == Unlock(None) <==>
       a == Step(t) && s.phases[t].Locked? && Contents(s) == [])
  {
    hide Inv, Wellformed, OrderOk, SentinelOk;
    Facts(s, a.tid);
  }

  /** A thread is about to return a node only if it has just taken it from the front of the queue, or
      took the only one there was by its swap of Tail and has cleared the sentinel's Next since. */
  lemma ReturnsExactly(s: Queue, a: Action, t: nat, n: nat)
    requires Inv(s) && Enabled(s, a) && t < |s.phases|
    ensures |Apply(s, a).phases| == |s.phases| && s.front <= |s.order|
    ensures s.phases[t] != Unlock(Some(n)) && Apply(s, a).phases[t] == Unlock(Some(n)) ==>
      a == Step(t) && (s.phases[t] == Unlink(n) || (Contents(s) != [] && Contents(s)[0] == n && Apply(s, a).front == s.front + 1))
    ensures s.phases[t] != Unlink(n) && Apply(s, a).phases[t] == Unlink(n) ==>
      a == Step(t) && Contents(s) == [n] && Apply(s, a).front == s.front + 1
  {
    hide Inv, Wellformed, OrderOk, SentinelOk, ThreadOk;
    Facts(s, a.tid);
    NewPhase(s, a, t);
    TakesFirst(s, t);
  }

  /** Only a thread's own access changes its phase; which ones hand over a node. */
  lemma NewPhase(s: Queue, a: Action, t: nat)
    requires Wellformed(s) && Enabled(s, a) && t < |s.phases|
    ensures |Apply(s, a).phases| == |s.phases|
    ensures var p, p' := s.phases[t], Apply(s, a).phases[t];
      && (p != p' ==> a.tid == t)
      && (p != p' && p'.Unlock? && p'.result.Some? ==>
            a == Step(t) && (p == Unlink(p'.result.value) || (p == Advance(p'.result.value) && Takes(s, t))))
      && (p != p' && p'.Unlink? ==> a == Step(t) && p == Swap(p'.node) && Takes(s, t))
    ensures a == Step(t) && Takes(s, t) ==> Apply(s, a).front == s.front + 1
  {
    hide Wellformed;
  }

  /** Whoever takes a node takes the first one, and by a swap of Tail the only one. */
  lemma TakesFirst(s: Queue, t: nat)
    requires Inv(s) && t < |s.phases|
    ensures s.front <= |s.order|
    ensures Takes(s, t) ==> Contents(s) != [] && Contents(s)[0] == s.phases[t].node
    ensures Takes(s, t) && s.phases[t].Swap? ==> Contents(s) == [s.phases[t].node]
  {
    hide Inv, Wellformed;
    Facts(s, t);
    if Takes(s, t) && s.phases[t].Swap? {
      At(s, s.front);
      At(s, |s.order| - 1);
    }
  }

  // ---------------------------------------------------------------------------------------------
  // Nobody waits in vain
  // ---------------------------------------------------------------------------------------------

  /** A thread waits for the holder of the lock, or for a pusher that has swapped its node in and has
      yet to link it. */
  ghost predicate Blocked(s: Queue, t: nat)
    requires Wellformed(s) && OrderOk(s) && t < |s.phases|
  {
    match s.phases[t]
    case Wanting => s.holder.Some?
    case AwaitFirst => !FirstLinked(s)
    case AwaitSecond => !SecondLinked(s)
    case _ => false
  }

  /** Where a thread goes next, by the contents of the queue and by which of its nodes are linked,
      instead of by the fields it reads. */
  ghost function Follows(s: Queue, t: nat): Phase
    requires Wellformed(s) && OrderOk(s) && t < |s.phases|
  {
    var c, waits := Contents(s), Blocked(s, t);
    match s.phases[t]
    case Prepared(n) => Linking(n, if c == [] then SENTINEL else c[|c| - 1])
    case Linking(_, _) => Idle
    case Wanting => if waits then Wanting else Locked
    case Locked => if c == [] then Unlock(None) else AwaitFirst
    case AwaitFirst => if waits then AwaitFirst else ReadTail
    case ReadTail => if c == [] then ReadTail else Compare(c[|c| - 1])
    case Compare(seen) => if c != [] && c[0] == seen then Swap(seen) else AwaitSecond
    case Swap(n) => if c == [n] then Unlink(n) else AwaitSecond
    case Unlink(n) => Unlock(Some(n))
    case AwaitSecond => if waits then AwaitSecond else TakeFirst
    case TakeFirst => if c == [] then TakeFirst else Advance(c[0])
    case Advance(n) => Unlock(Some(n))
    case Unlock(_) => Idle
    case Idle => Idle
  }

  /** How many accesses a call has ahead of it at most, waiting aside. */
  function Ahead(p: Phase): nat {
    match p
    case Idle => 0
    case Prepared(_) => 2
    case Linking(_, _) => 1
    case Wanting => 10
    case Locked => 9
    case AwaitFirst => 8
    case ReadTail => 7
    case Compare(_) => 6
    case Swap(_) => 5
    case AwaitSecond => 4
    case TakeFirst => 3
    case Unlink(_) => 2
    case Advance(_) => 2
    case Unlock(_) => 1
  }

  /** What the sentinel and the first node show of the queue to the holder of the lock. */
  lemma LinksSeen(s: Queue, t: nat)
    requires Inv(s) && t < |s.phases| && HasLock(s.phases[t]) && !s.phases[t].Unlink?
    ensures Wellformed(s) && OrderOk(s)
    ensures s.next[SENTINEL] == if FirstLinked(s) then Some(s.order[s.front]) else None
    ensures FirstLinked(s) ==> (s.next[s.order[s.front]].Some? <==> SecondLinked(s))
  {
    hide Inv, Wellformed, OrderOk;
    Facts(s, t);
    if s.front < |s.order| {
      At(s, s.front);
      if s.front + 1 < |s.order| {
        At(s, s.front + 1);
      }
    }
  }

  /** A step goes where the contents say. */
  lemma StepExact(s: Queue, t: nat)
    requires Inv(s) && t < |s.phases| && !s.phases[t].Idle?
    ensures Wellformed(s) && OrderOk(s) && Apply(s, Step(t)).phases == s.phases[t := Follows(s, t)]
  {
    hide Inv, Wellformed, OrderOk, LinkOk, SentinelOk, FirstLinked, SecondLinked;
    Facts(s, t);
    FirstAndLast(s);
    if HasLock(s.phases[t]) && !s.phases[t].Unlink? {
      LinksSeen(s, t);
    }
  }

  lemma FirstAndLast(s: Queue)
    requires Inv(s)
    ensures Wellformed(s) && OrderOk(s) && s.front <= |s.order| && (FirstLinked(s) || SecondLinked(s) ==> s.front < |s.order|)
    ensures SecondLinked(s) ==> FirstLinked(s)
    ensures s.front < |s.order| ==>
      && s.tail == s.order[|s.order| - 1] && (s.tail == s.order[s.front] <==> s.front + 1 == |s.order|)
      && (s.front + 1 == |s.order| ==> Contents(s) == [s.order[s.front]])
  {
    hide Inv, Wellformed;
    FrontBound(s);
    if s.front < |s.order| {
      At(s, s.front);
      At(s, |s.order| - 1);
    }
  }

  /** A step changes nothing while the thread waits, and otherwise brings its call nearer to its end. */
  lemma StepAdvances(s: Queue, t: nat)
    requires Inv(s) && t < |s.phases| && !s.phases[t].Idle?
    ensures Wellformed(s) && OrderOk(s)
    ensures Blocked(s, t) ==> Apply(s, Step(t)) == s
    ensures !Blocked(s, t) ==>
      |Apply(s, Step(t)).phases| == |s.phases| && Ahead(Apply(s, Step(t)).phases[t]) < Ahead(s.phases[t])
  {
    hide Inv, Wellformed, OrderOk, LinkOk, SentinelOk, FirstLinked, SecondLinked;
    Facts(s, t);
    FirstAndLast(s);
    if HasLock(s.phases[t]) && !s.phases[t].Unlink? {
      LinksSeen(s, t);
    }
  }

  /** Whenever a call is in progress, some thread inside a call can take a step that brings it nearer
      to its end: whoever waits, waits in the end for a thread that does not. */
  lemma NoDeadlock(s: Queue, t: nat) returns (u: nat)
    requires Inv(s) && t < |s.phases| && !s.phases[t].Idle?
    ensures Wellformed(s) && OrderOk(s) && u < |s.phases| && Enabled(s, Step(u)) && !Blocked(s, u)
  {
    hide Inv, Wellformed, OrderOk, SentinelOk;
    Facts(s, t);
    u := t;
    if s.phases[u].Wanting? && s.holder.Some? {
      u := s.holder.value;
      Facts(s, u);
    }
    if Blocked(s, u) {
      var i := if s.phases[u].AwaitFirst? then s.front else s.front + 1;
      At(s, i);
      Placed(s, s.order[i]);
      u := s.status[s.order[i]].tid;
    }
  }

  ghost predicate CanRun(s: Queue, run: seq<Action>)
    decreases |run|
  {
    run == [] || (Wellformed(s) && Enabled(s, run[0]) && CanRun(Apply(s, run[0]), run[1..]))
  }

  ghost function Run(s: Queue, run: seq<Action>): Queue
    requires CanRun(s, run)
    decreases |run|
  {
    if run == [] then s else Run(Apply(s, run[0]), run[1..])
  }

  function In(e: Linearized): seq<nat> { if e.Enqueue? then [e.node] else [] }

  function Out(e: Linearized): seq<nat> { if e.Dequeue? then [e.node] else [] }

  /** The nodes enqueued and dequeued along a run, in order. */
  ghost function Pushed(s: Queue, run: seq<Action>): seq<nat>
    requires CanRun(s, run)
    decreases |run|
  {
    if run == [] then [] else In(EffectOf(s, run[0])) + Pushed(Apply(s, run[0]), run[1..])
  }

  ghost function PoppedNodes(s: Queue, run: seq<Action>): seq<nat>
    requires CanRun(s, run)
    decreases |run|
  {
    if run == [] then [] else Out(EffectOf(s, run[0])) + PoppedNodes(Apply(s, run[0]), run[1..])
  }

  lemma StepBalance(s: Queue, a: Action)
    requires Inv(s) && Enabled(s, a)
    ensures Inv(Apply(s, a)) && s.front <= |s.order| && Apply(s, a).front <= |Apply(s, a).order|
    ensures Contents(s) + In(EffectOf(s, a)) == Out(EffectOf(s, a)) + Contents(Apply(s, a))
  {
    hide Inv, Contents, Apply, EffectOf;
    RefinesFifo(s, a);
  }

  /** Over every run from a state satisfying the invariant, what was in the queue and what was pushed,
      in swap order, is what was popped, in order, followed by what is still there. */
  lemma {:induction false} RunIsFifo(s: Queue, run: seq<Action>)
    requires Inv(s) && CanRun(s, run)
    ensures Inv(Run(s, run)) && s.front <= |s.order| && Run(s, run).front <= |Run(s, run).order|
    ensures Contents(s) + Pushed(s, run) == PoppedNodes(s, run) + Contents(Run(s, run))
    decreases |run|
  {
    hide Inv, Apply, Contents, EffectOf, In, Out;
    FrontBound(s);
    if run == [] {
      assert Contents(s) + [] == [] + Contents(s);
    } else {
      StepBalance(s, run[0]);
      var s1 := Apply(s, run[0]);
      RunIsFifo(s1, run[1..]);
      Glue(Contents(s), In(EffectOf(s, run[0])), Out(EffectOf(s, run[0])), Contents(s1),
           Pushed(s1, run[1..]), PoppedNodes(s1, run[1..]), Contents(Run(s1, run[1..])));
    }
  }

  /** From the empty queue: every popped node is a pushed one, in push order, each exactly once. */
  lemma FifoFromEmpty(threads: nat, nodes: nat, run: seq<Action>)
    requires CanRun(Init(threads, nodes), run)
    ensures var s := Init(threads, nodes);
      Inv(Run(s, run)) && Run(s, run).front <= |Run(s, run).order| &&
      Pushed(s, run) == PoppedNodes(s, run) + Contents(Run(s, run))
  {
    InitInv(threads, nodes);
    RunIsFifo(Init(threads, nodes), run);
  }
}
