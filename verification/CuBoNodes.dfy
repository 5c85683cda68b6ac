/** The linked nodes of the combining queue: what pushers and the one combiner do to them.

    Pushers swap themselves in at Tail and link their predecessor afterwards.  The combiner follows
    the links from the front without unlinking anything and moves Head or Tail only at the end of
    its round.  In between, the next node will be linked from the `anchor`: the permanent sentinel
    (node 0), or the last node given away and not yet released, or nothing when the first node left
    is known to be linked.  `order`, `front`, `anchor`, `place` and `status` are history that no
    step looks at. */
module CuBoNodes {
  import opened Common

  const SENTINEL := 0

  datatype Push =
    | Resting
    | Prepared(node: nat)             // own Next cleared
    | Linking(node: nat, pred: nat)   // swapped in, link not stored yet

  datatype Status =
    | Free
    | Held(tid: nat)       // owned by a pusher that has not swapped yet
    | InFlight(tid: nat)   // in the queue, link not stored yet
    | Linked               // in the queue, link stored
    | Popped(req: nat)     // given to a pop request

  datatype Nodes = Nodes(
    tail: nat, next: seq<Option<nat>>, push: seq<Push>,
    order: seq<nat>, front: nat, anchor: Option<nat>, place: seq<nat>, status: seq<Status>)

  datatype Op =
    | Prepare(tid: nat, pushed: nat)
    | SwapTail(tid: nat)
    | StoreLink(tid: nat)
    | Take(req: nat)          // the first node goes to a request and becomes the anchor
    | Release                 // the anchor's request is done; the next node is linked already
    | ClearHead               // sentinel's Next cleared
    | EmptyTail               // Tail moved from the anchor to the sentinel
    | SetHead(first: nat)     // sentinel's Next set to the first node left
    | FreeNode(freed: nat)

  function Init(threads: nat, nodes: nat): Nodes {
    Nodes(SENTINEL, seq(nodes + 1, _ => None), seq(threads, _ => Resting), [], 0, Some(SENTINEL),
          seq(nodes + 1, _ => 0), seq(nodes + 1, _ => Free))
  }

  predicate PushBelow(p: Push, m: nat) {
    match p
    case Prepared(n) => 0 < n < m
    case Linking(n, q) => 0 < n < m && q < m
    case Resting => true
  }

  predicate Wellformed(s: Nodes) {
    && |s.next| == |s.place| == |s.status| > 0 && s.tail < |s.next|
    && (forall n :: 0 <= n < |s.next| && s.next[n].Some? ==> 0 < s.next[n].value < |s.next|)
    && (forall t :: 0 <= t < |s.push| ==> PushBelow(s.push[t], |s.next|))
    && s.front <= |s.order| && (forall i :: 0 <= i < |s.order| ==> 0 < s.order[i] < |s.next|)
    && (s.anchor.Some? ==> s.anchor.value < |s.next|)
  }

  predicate FirstLinked(s: Nodes)
    requires Wellformed(s)
  {
    s.front < |s.order| && s.status[s.order[s.front]].Linked?
  }

  predicate CanDo(s: Nodes, op: Op)
    requires Wellformed(s)
  {
    match op
    case Prepare(t, n) => t < |s.push| && s.push[t].Resting? && 0 < n < |s.next| && s.status[n].Free?
    case SwapTail(t) => t < |s.push| && s.push[t].Prepared?
    case StoreLink(t) => t < |s.push| && s.push[t].Linking?
    case Take(_) => FirstLinked(s)
    case Release => FirstLinked(s)
    case ClearHead => s.anchor.Some? && s.anchor.value != SENTINEL
    case EmptyTail => s.anchor.Some? && s.anchor.value == s.tail != SENTINEL && s.next[SENTINEL].None?
    case SetHead(n) => s.anchor.None? && FirstLinked(s) && n == s.order[s.front]
    case FreeNode(n) => n < |s.status| && s.status[n].Popped? && s.anchor != Some(n)
  }

  function Do(s: Nodes, op: Op): Nodes
    requires Wellformed(s) && CanDo(s, op)
  {
    match op
    case Prepare(t, n) =>
      s.(push := s.push[t := Prepared(n)], next := s.next[n := None], status := s.status[n := Held(t)])
    case SwapTail(t) =>
      var n := s.push[t].node;
      s.(push := s.push[t := Linking(n, s.tail)], tail := n, order := s.order + [n],
         place := s.place[n := |s.order|], status := s.status[n := InFlight(t)])
    case StoreLink(t) =>
      var p := s.push[t];
      s.(push := s.push[t := Resting], next := s.next[p.pred := Some(p.node)], status := s.status[p.node := Linked])
    case Take(r) =>
      var n := s.order[s.front];
      s.(front := s.front + 1, anchor := Some(n), status := s.status[n := Popped(r)])
    case Release => s.(anchor := None)
    case ClearHead => s.(next := s.next[SENTINEL := None])
    case EmptyTail => s.(tail := SENTINEL, anchor := Some(SENTINEL))
    case SetHead(n) => s.(next := s.next[SENTINEL := Some(n)], anchor := Some(SENTINEL))
    case FreeNode(n) => s.(status := s.status[n := Free])
  }

  // ---------------------------------------------------------------------------------------------
  // The invariant
  // ---------------------------------------------------------------------------------------------

  predicate InQueue(st: Status) { st.InFlight? || st.Linked? }

  /** The node that position `i` is, or will be, linked from. */
  function Pred(s: Nodes, i: nat): Option<nat>
    requires s.front <= i <= |s.order|
  {
    if i > s.front then Some(s.order[i - 1]) else s.anchor
  }

  ghost predicate PlaceOk(s: Nodes, i: nat)
    requires Wellformed(s) && s.front <= i < |s.order|
  {
    s.place[s.order[i]] == i && InQueue(s.status[s.order[i]])
  }

  ghost predicate LinkOk(s: Nodes, i: nat)
    requires Wellformed(s) && s.front <= i < |s.order|
  {
    var p := Pred(s, i);
    p.Some? ==> (p.value < |s.next| &&
      s.next[p.value] == (if s.status[s.order[i]].Linked? then Some(s.order[i]) else None))
  }

  ghost predicate NodeOk(s: Nodes, n: nat)
    requires Wellformed(s) && n < |s.next|
  {
    && (InQueue(s.status[n]) ==> s.front <= s.place[n] < |s.order| && s.order[s.place[n]] == n)
    && match s.status[n]
       case Held(t) => t < |s.push| && s.push[t] == Prepared(n)
       case InFlight(t) => t < |s.push| && s.push[t].Linking? && s.push[t].node == n
       case _ => true
  }

  ghost predicate PushOk(s: Nodes, t: nat)
    requires Wellformed(s) && t < |s.push|
  {
    match s.push[t]
    case Resting => true
    case Prepared(n) => s.status[n] == Held(t) && s.next[n].None?
    case Linking(n, p) =>
      s.status[n] == InFlight(t) && s.front <= s.place[n] < |s.order| && s.order[s.place[n]] == n &&
      Pred(s, s.place[n]) == Some(p)
  }

  ghost predicate EndsOk(s: Nodes)
    requires Wellformed(s)
  {
    && Pred(s, |s.order|) == Some(s.tail) && s.next[s.tail].None?
    && s.status[SENTINEL].Free?
    && (s.anchor.Some? && s.anchor.value != SENTINEL ==> s.status[s.anchor.value].Popped?)
    && (s.anchor.None? ==> FirstLinked(s))
  }

  ghost predicate Inv(s: Nodes) {
    && Wellformed(s) && EndsOk(s)
    && (forall i :: s.front <= i < |s.order| ==> PlaceOk(s, i) && LinkOk(s, i))
    && (forall n :: 0 <= n < |s.next| ==> NodeOk(s, n))
    && (forall t :: 0 <= t < |s.push| ==> PushOk(s, t))
  }

  lemma InitInv(threads: nat, nodes: nat)
    ensures Inv(Init(threads, nodes))
  {
  }

  /** The abstract FIFO queue. */
  function Contents(s: Nodes): seq<nat>
    requires s.front <= |s.order|
  {
    s.order[s.front..]
  }

  // ---------------------------------------------------------------------------------------------
  // What a reader may conclude
  // ---------------------------------------------------------------------------------------------

  lemma Facts(s: Nodes)
    requires Inv(s)
    ensures Wellformed(s) && EndsOk(s)
  {
  }

  lemma At(s: Nodes, i: nat)
    requires Inv(s) && s.front <= i < |s.order|
    ensures PlaceOk(s, i) && LinkOk(s, i)
  {
  }

  lemma NodeAt(s: Nodes, n: nat)
    requires Inv(s) && n < |s.next|
    ensures NodeOk(s, n)
  {
  }

  lemma PushAt(s: Nodes, t: nat)
    requires Inv(s) && t < |s.push|
    ensures PushOk(s, t) && PushBelow(s.push[t], |s.next|)
  {
  }

  /** Following the anchor's link leads to the first node left, once that is linked. */
  lemma AnchorLink(s: Nodes)
    requires Inv(s) && s.anchor.Some?
    ensures Wellformed(s) && s.anchor.value < |s.next|
    ensures s.next[s.anchor.value].Some? <==> FirstLinked(s)
    ensures s.next[s.anchor.value].Some? ==> s.next[s.anchor.value] == Some(s.order[s.front])
  {
    hide Inv, Wellformed, EndsOk;
    Facts(s);
    AnchorBound(s);
    if s.front < |s.order| {
      At(s, s.front);
    }
  }

  lemma AnchorBound(s: Nodes)
    requires Wellformed(s) && EndsOk(s)
    ensures s.front <= |s.order| && (s.anchor.Some? ==> s.anchor.value < |s.next|)
    ensures s.anchor.Some? && s.front == |s.order| ==> s.tail == s.anchor.value && s.next[s.tail].None?
  {
  }

  /** Tail is at the anchor exactly when nothing is left. */
  lemma TailAtAnchor(s: Nodes)
    requires Inv(s) && s.anchor.Some?
    ensures s.tail == s.anchor.value <==> s.front == |s.order|
  {
    Facts(s);
    if s.front < |s.order| {
      At(s, |s.order| - 1);
    }
  }

  // ---------------------------------------------------------------------------------------------
  // Every operation keeps the invariant
  // ---------------------------------------------------------------------------------------------

  lemma WellformedDo(s: Nodes, op: Op)
    requires Inv(s) && CanDo(s, op)
    ensures Wellformed(Do(s, op))
  {
    Facts(s);
    hide Inv, EndsOk;
    if op.SwapTail? || op.StoreLink? {
      PushAt(s, op.tid);
    }
  }

  lemma NodeOfDo(s: Nodes, s': Nodes, op: Op, n: nat)
    requires Inv(s) && CanDo(s, op) && s' == Do(s, op) && Wellformed(s') && n < |s.next|
    ensures NodeOk(s', n)
  {
    hide Inv, Wellformed, EndsOk;
    Facts(s);
    NodeAt(s, n);
    if op.Prepare? || op.SwapTail? || op.StoreLink? {
      PushAt(s, op.tid);
    }
    FirstPlaced(s);
    Bounds(s);
  }

  lemma FirstPlaced(s: Nodes)
    requires Inv(s)
    ensures Wellformed(s) && (FirstLinked(s) ==> s.place[s.order[s.front]] == s.front)
  {
    Facts(s);
    if s.front < |s.order| {
      At(s, s.front);
    }
  }

  lemma Bounds(s: Nodes)
    requires Wellformed(s)
    ensures |s.next| == |s.place| == |s.status| > 0 && s.front <= |s.order| && s.tail < |s.next|
    ensures forall i :: 0 <= i < |s.order| ==> 0 < s.order[i] < |s.next|
  {
  }

  lemma PlaceOfDo(s: Nodes, s': Nodes, op: Op, i: nat)
    requires Inv(s) && CanDo(s, op) && s' == Do(s, op) && Wellformed(s') && s'.front <= i < |s'.order|
    ensures PlaceOk(s', i)
  {
    hide Inv, Wellformed, EndsOk;
    Facts(s);
    Bounds(s);
    if i < |s.order| {
      At(s, i);
      FirstPlaced(s);
    }
    if op.Prepare? || op.SwapTail? || op.StoreLink? {
      PushAt(s, op.tid);
    }
  }

  /** Two positions are never linked from the same node, nor is a queued node its own predecessor. */
  lemma PredApart(s: Nodes, i: nat, j: nat)
    requires Inv(s) && s.front <= i < j <= |s.order|
    ensures Pred(s, i) != Pred(s, j)
  {
    hide Inv, Wellformed;
    Facts(s);
    Bounds(s);
    At(s, j - 1);
    if i > s.front {
      At(s, i - 1);
    }
  }

  lemma LinkOfStore(s: Nodes, s': Nodes, t: nat, i: nat)
    requires Inv(s) && CanDo(s, StoreLink(t)) && s' == Do(s, StoreLink(t)) && Wellformed(s') && s.front <= i < |s.order|
    ensures s'.front == s.front && s'.order == s.order && LinkOk(s', i)
  {
    hide Inv, Wellformed, EndsOk;
    Facts(s);
    Bounds(s);
    At(s, i);
    PushAt(s, t);
    var j := s.place[s.push[t].node];
    if j < i {
      PredApart(s, j, i);
    } else if i < j {
      PredApart(s, i, j);
    }
  }

  lemma LinkOfDo(s: Nodes, s': Nodes, op: Op, i: nat)
    requires Inv(s) && CanDo(s, op) && s' == Do(s, op) && Wellformed(s') && s'.front <= i < |s'.order|
    ensures LinkOk(s', i)
  {
    hide Inv, Wellformed, LinkOk;
    Facts(s);
    if op.StoreLink? {
      LinkOfStore(s, s', op.tid, i);
    } else if op.Prepare? || op.SwapTail? {
      LinkOfPush(s, s', op, i);
    } else {
      LinkOfRound(s, s', op, i);
    }
  }

  lemma LinkOfPush(s: Nodes, s': Nodes, op: Op, i: nat)
    requires Inv(s) && CanDo(s, op) && s' == Do(s, op) && Wellformed(s') && s'.front <= i < |s'.order|
    requires op.Prepare? || op.SwapTail?
    ensures LinkOk(s', i)
  {
    hide Inv, Wellformed;
    Facts(s);
    Bounds(s);
    PushAt(s, op.tid);
    if i < |s.order| {
      At(s, i);
    }
    if i > s.front {
      At(s, i - 1);
    }
  }

  lemma LinkOfRound(s: Nodes, s': Nodes, op: Op, i: nat)
    requires Inv(s) && CanDo(s, op) && s' == Do(s, op) && Wellformed(s') && s'.front <= i < |s'.order|
    requires !op.Prepare? && !op.SwapTail? && !op.StoreLink?
    ensures LinkOk(s', i)
  {
    hide Inv, Wellformed;
    Facts(s);
    Bounds(s);
    FirstPlaced(s);
    At(s, i);
    if i > s.front {
      At(s, i - 1);
    }
  }

  lemma PushOfDo(s: Nodes, s': Nodes, op: Op, t: nat)
    requires Inv(s) && CanDo(s, op) && s' == Do(s, op) && Wellformed(s') && t < |s.push|
    ensures PushOk(s', t)
  {
    hide Inv, Wellformed, PushOk, Do;
    Facts(s);
    if op.StoreLink? {
      PushOfStore(s, s', op.tid, t);
    } else if op.Prepare? || op.SwapTail? {
      PushOfPush(s, s', op, t);
    } else {
      PushOfRound(s, s', op, t);
    }
  }

  lemma PushOfPush(s: Nodes, s': Nodes, op: Op, t: nat)
    requires Inv(s) && CanDo(s, op) && s' == Do(s, op) && Wellformed(s') && t < |s.push| && (op.Prepare? || op.SwapTail?)
    ensures PushOk(s', t)
  {
    hide Inv, Wellformed;
    Facts(s);
    Bounds(s);
    PushAt(s, t);
    PushAt(s, op.tid);
  }

  lemma PushOfStore(s: Nodes, s': Nodes, u: nat, t: nat)
    requires Inv(s) && CanDo(s, StoreLink(u)) && s' == Do(s, StoreLink(u)) && Wellformed(s') && t < |s.push|
    ensures PushOk(s', t)
  {
    hide Inv, Wellformed;
    Facts(s);
    Bounds(s);
    PushAt(s, t);
    PushAt(s, u);
    FirstPlaced(s);
    var j := s.place[s.push[u].node];
    PredApart(s, j, |s.order|);
    if j > s.front {
      At(s, j - 1);
    }
  }

  lemma PushOfRound(s: Nodes, s': Nodes, op: Op, t: nat)
    requires Inv(s) && CanDo(s, op) && s' == Do(s, op) && Wellformed(s') && t < |s.push|
    requires !op.Prepare? && !op.SwapTail? && !op.StoreLink?
    ensures PushOk(s', t)
  {
    hide Inv, Wellformed;
    Facts(s);
    Bounds(s);
    PushAt(s, t);
    FirstPlaced(s);
    if op.EmptyTail? {
      TailAtAnchor(s);
    }
  }

  lemma EndsOfDo(s: Nodes, s': Nodes, op: Op)
    requires Inv(s) && CanDo(s, op) && s' == Do(s, op) && Wellformed(s')
    ensures EndsOk(s')
  {
    hide Inv, Wellformed, EndsOk, Do;
    Facts(s);
    if op.StoreLink? {
      EndsOfStore(s, s', op.tid);
    } else if op.Prepare? || op.SwapTail? {
      EndsOfPush(s, s', op);
    } else {
      EndsOfRound(s, s', op);
    }
  }

  lemma EndsOfPush(s: Nodes, s': Nodes, op: Op)
    requires Inv(s) && CanDo(s, op) && s' == Do(s, op) && Wellformed(s') && (op.Prepare? || op.SwapTail?)
    ensures EndsOk(s')
  {
    hide Inv, Wellformed;
    Facts(s);
    Bounds(s);
    PushAt(s, op.tid);
    FirstPlaced(s);
    if s.front < |s.order| {
      At(s, |s.order| - 1);
    }
  }

  lemma EndsOfStore(s: Nodes, s': Nodes, t: nat)
    requires Inv(s) && CanDo(s, StoreLink(t)) && s' == Do(s, StoreLink(t)) && Wellformed(s')
    ensures EndsOk(s')
  {
    hide Inv, Wellformed;
    Facts(s);
    Bounds(s);
    PushAt(s, t);
    FirstPlaced(s);
    var j := s.place[s.push[t].node];
    PredApart(s, j, |s.order|);
    if j > s.front {
      At(s, j - 1);
    }
  }

  lemma EndsOfRound(s: Nodes, s': Nodes, op: Op)
    requires Inv(s) && CanDo(s, op) && s' == Do(s, op) && Wellformed(s')
    requires !op.Prepare? && !op.SwapTail? && !op.StoreLink?
    ensures EndsOk(s')
  {
    hide Inv, Wellformed;
    Facts(s);
    Bounds(s);
    FirstPlaced(s);
    if s.front < |s.order| {
      At(s, s.front);
      At(s, |s.order| - 1);
    }
    if op.EmptyTail? {
      TailAtAnchor(s);
    }
  }

  lemma OpInv(s: Nodes, op: Op)
    requires Inv(s) && CanDo(s, op)
    ensures Inv(Do(s, op))
  {
    WellformedDo(s, op);
    var s' := Do(s, op);
    EndsOfDo(s, s', op);
    Sizes(s, op);
    hide Wellformed, CanDo, Do, NodeOk, PushOk, PlaceOk, LinkOk, EndsOk;
    forall i | s'.front <= i < |s'.order|
      ensures PlaceOk(s', i) && LinkOk(s', i)
    {
      PlaceOfDo(s, s', op, i);
      LinkOfDo(s, s', op, i);
    }
    forall n | 0 <= n < |s'.next|
      ensures NodeOk(s', n)
    {
      NodeOfDo(s, s', op, n);
    }
    forall t | 0 <= t < |s'.push|
      ensures PushOk(s', t)
    {
      PushOfDo(s, s', op, t);
    }
  }

  lemma Sizes(s: Nodes, op: Op)
    requires Wellformed(s) && CanDo(s, op)
    ensures |Do(s, op).next| == |s.next| && |Do(s, op).push| == |s.push|
  {
  }
}
