/** The combining queue: pushers, pop requests and the one combiner that holds the head lock.

    A popper does not take a node itself: it adds a request to the chain of its cluster and waits.
    The request at the front of each chain combines; it takes the head lock, walks the linked nodes
    and its chain side by side, gives one node to each request, refuses the rest once it finds the
    queue empty, repairs Head or Tail, wakes the next combiner of its chain and lets go of the lock.
    Pushers go on swapping nodes in at Tail all the while, and link them later.

    The state joins the linked nodes and the request chains; `step` is the program counter of the
    combiner.  One shared access per step, any number of pushers, poppers and clusters.  The head
    lock is taken as atomic (CLHLock). */
module CuBoQueue {
  import opened Common
  import opened CuBoNodes
  import N = CuBoNodes
  import R = CuBoRequests

  datatype Step =
    | NoRound
    | CheckFirst                              // is the sentinel's Next empty?
    | CheckTail                               // is Tail at the sentinel?
    | AwaitFirst
    | Serve(node: nat)                        // give the node to the current request
    | ReadLink(node: nat)
    | ReadChain(node: nat, link: Option<nat>) // is the next request linked onwards?
    | CheckLast(node: nat)                    // no next node seen, but another request waits
    | Handoff(after: nat)                     // mark the current request done, go on with both
    | Refuse(last: Option<nat>)               // `last`: the last node given away, if any
    | ReadAfter(last: Option<nat>)
    | RefuseDone(last: Option<nat>)
    | Close(node: nat)                        // all served: was that the last node?
    | ClearHead(node: nat)
    | CasTail(node: nat)
    | AwaitNext(node: nat)
    | Advance(node: nat)
    | MarkTaken                               // mark LastNodeReq done unless it is LastReq
    | MarkAdvanced(first: nat)
    | SetHead(first: nat)
    | Wake
    | Finish
    | Unlock

  datatype Queue = Queue(n: N.Nodes, r: R.Requests, step: Step)

  datatype Action =
    | StartPush(tid: nat, node: nat)
    | Push(tid: nat)
    | StartPop(tid: nat)
    | Pop(tid: nat)

  function Init(nodes: nat, clusters: nat, cluster: seq<nat>): Queue {
    Queue(N.Init(|cluster|, nodes), R.Init(clusters, cluster), NoRound)
  }

  predicate Wellformed(s: Queue) {
    N.Wellformed(s.n) && R.Wellformed(s.r) && |s.n.push| == |s.r.phases|
  }

  predicate Enabled(s: Queue, a: Action)
    requires Wellformed(s)
  {
    && a.tid < |s.r.phases|
    && match a
       case StartPush(t, node) => s.r.phases[t].Away? && N.CanDo(s.n, N.Prepare(t, node))
       case Push(t) => !s.n.push[t].Resting?
       case StartPop(t) => s.r.phases[t].Away? && s.n.push[t].Resting?
       case Pop(t) => !s.r.phases[t].Away?
  }

  /** What one access does: at most one operation on the nodes, at most one act on the requests, and
      where the combiner goes next. */
  datatype Effect = Effect(op: Option<N.Op>, act: Option<R.Act>, step: Step)

  /** The next access of the combiner. */
  function CombineStep(s: Queue): Effect
    requires Wellformed(s) && s.step != NoRound
  {
    match s.step
    case NoRound => Effect(None, None, NoRound)
    case CheckFirst =>
      Effect(None, None, if s.n.next[SENTINEL].Some? then Serve(s.n.next[SENTINEL].value) else CheckTail)
    case CheckTail => Effect(None, None, if s.n.tail == SENTINEL then Refuse(None) else AwaitFirst)
    case AwaitFirst =>
      Effect(None, None, if s.n.next[SENTINEL].Some? then Serve(s.n.next[SENTINEL].value) else AwaitFirst)
    case Serve(node) =>
      Effect(Some(N.Take(if R.Active(s.r) then R.Current(s.r) else 0)), Some(R.Give(R.Got(node))), ReadLink(node))
    case ReadLink(node) =>
      Effect(None, None, if node < |s.n.next| then ReadChain(node, s.n.next[node]) else ReadLink(node))
    case ReadChain(node, link) =>
      var waits := R.Active(s.r) && R.NextWaits(s.r);
      Effect(None, None,
        if link.None? && waits then CheckLast(node) else if !waits then Close(node)
        else Handoff(if link.Some? then link.value else 0))
    case CheckLast(node) =>
      if s.n.tail != node then Effect(None, None, ReadLink(node)) else Effect(None, Some(R.Hold), Refuse(Some(node)))
    case Handoff(after) => Effect(Some(N.Release), Some(R.Pass), Serve(after))
    case Refuse(last) => Effect(None, Some(R.Give(R.Refused)), ReadAfter(last))
    case ReadAfter(last) =>
      Effect(None, None,
        if R.Active(s.r) && R.NextWaits(s.r) then RefuseDone(last) else if last.None? then Wake else Close(last.value))
    case RefuseDone(last) => Effect(None, Some(R.Pass), Refuse(last))
    case Close(node) =>
      Effect(None, None, if node < |s.n.next| && s.n.next[node].None? then Step.ClearHead(node) else Advance(node))
    case ClearHead(node) => Effect(Some(N.ClearHead), None, CasTail(node))
    case CasTail(node) =>
      if s.n.tail == node then Effect(Some(N.EmptyTail), None, MarkTaken) else Effect(None, None, AwaitNext(node))
    case AwaitNext(node) =>
      Effect(None, None, if node < |s.n.next| && s.n.next[node].Some? then Advance(node) else AwaitNext(node))
    case Advance(node) =>
      Effect(None, None,
        MarkAdvanced(if node < |s.n.next| && s.n.next[node].Some? then s.n.next[node].value else 0))
    case MarkTaken => Effect(None, if HasHeld(s) then Some(R.ReleaseHeld) else None, Wake)
    case MarkAdvanced(first) =>
      Effect(Some(N.Release), if HasHeld(s) then Some(R.ReleaseHeld) else None, Step.SetHead(first))
    case SetHead(first) => Effect(Some(N.SetHead(first)), None, Wake)
    case Wake => Effect(None, Some(R.Wake), Finish)
    case Finish => Effect(None, Some(R.Finish), Unlock)
    case Unlock => Effect(None, Some(R.Unlock), NoRound)
  }

  predicate HasHeld(s: Queue) { s.r.round.Some? && s.r.round.value.held.Some? }

  /** The next access of a thread that pops but does not combine.  Returning, it hands its node to its
      caller. */
  function PopStep(s: Queue, t: nat): Effect
    requires Wellformed(s) && t < |s.r.phases| && !s.r.phases[t].Away? && !s.r.phases[t].Combining?
  {
    match s.r.phases[t]
    case Requesting => Effect(None, Some(R.SwapIn(t)), s.step)
    case Filling(_) => Effect(None, Some(R.Fill(t)), s.step)
    case Waiting(_) => Effect(None, Some(R.See(t)), s.step)
    case WantLock(_) =>
      if s.r.round.None? then Effect(None, Some(R.TakeLock(t)), CheckFirst) else Effect(None, None, s.step)
    case Return(q) =>
      var a := s.r.answer[q];
      Effect(if a.Some? && a.value.Got? then Some(N.FreeNode(a.value.node)) else None, Some(R.Recycle(t)), s.step)
    case _ => Effect(None, None, s.step)
  }

  function EffectOf(s: Queue, a: Action): Effect
    requires Wellformed(s) && Enabled(s, a)
  {
    match a
    case StartPush(t, node) => Effect(Some(N.Prepare(t, node)), None, s.step)
    case Push(t) => Effect(Some(if s.n.push[t].Prepared? then N.SwapTail(t) else N.StoreLink(t)), None, s.step)
    case StartPop(t) => Effect(None, Some(R.Reset(t)), s.step)
    case Pop(t) =>
      if !s.r.phases[t].Combining? then PopStep(s, t)
      else if s.step == NoRound then Effect(None, None, NoRound) else CombineStep(s)
  }

  /** An effect all of whose parts can happen. */
  predicate Possible(s: Queue, e: Effect)
    requires Wellformed(s)
  {
    (e.op.Some? ==> N.CanDo(s.n, e.op.value)) && (e.act.Some? ==> R.CanAct(s.r, e.act.value))
  }

  function Perform(s: Queue, e: Effect): Queue
    requires Wellformed(s) && Possible(s, e)
  {
    Queue(if e.op.Some? then N.Do(s.n, e.op.value) else s.n, if e.act.Some? then R.Do(s.r, e.act.value) else s.r, e.step)
  }

  // ---------------------------------------------------------------------------------------------
  // The invariant that joins the two parts
  // ---------------------------------------------------------------------------------------------

  /** The request that got the last node of this round so far. */
  function LastNodeReq(r: R.Requests): nat
    requires R.Wellformed(r) && R.Active(r)
  {
    if r.round.value.held.Some? then r.round.value.held.value else R.Current(r)
  }

  /** Serving goes on: no request is held back, and the next combiner has not been told. */
  predicate Serving(r: R.Requests, answered: bool)
    requires R.Wellformed(r)
  {
    R.Active(r) && r.round.value.held.None? && !r.round.value.woken && R.HasAnswer(r) == answered
  }

  /** `node` went to the last request that got one, and the next node will be linked from it. */
  predicate AtNode(s: Queue, node: nat)
    requires Wellformed(s) && R.Active(s.r)
  {
    && s.n.anchor == Some(node) && node != SENTINEL
    && LastNodeReq(s.r) < |s.r.answer| && s.r.answer[LastNodeReq(s.r)] == Some(R.Got(node))
  }

  predicate FirstIs(s: Queue, node: nat)
    requires Wellformed(s)
  {
    N.FirstLinked(s.n) && s.n.order[s.n.front] == node
  }

  /** No request waits for this round any more. */
  predicate Closing(s: Queue, node: nat)
    requires Wellformed(s)
  {
    R.Active(s.r) && !s.r.round.value.woken && R.HasAnswer(s.r) && AtNode(s, node)
  }

  /** The refusing walk; `answered` tells whether the current request has its refusal yet. */
  predicate Refusing(s: Queue, last: Option<nat>, answered: bool)
    requires Wellformed(s)
  {
    && R.Active(s.r) && !s.r.round.value.woken && R.HasAnswer(s.r) == answered
    && match last
       case None => s.r.round.value.held.None? && s.n.anchor == Some(SENTINEL)
       case Some(node) => s.r.round.value.held.Some? && AtNode(s, node)
  }

  ghost predicate StepOk(s: Queue)
    requires Wellformed(s)
  {
    match s.step
    case NoRound => s.r.round.None? && s.n.anchor == Some(SENTINEL)
    case CheckFirst => Serving(s.r, false) && s.n.anchor == Some(SENTINEL)
    case CheckTail => Serving(s.r, false) && s.n.anchor == Some(SENTINEL)
    case AwaitFirst => Serving(s.r, false) && s.n.anchor == Some(SENTINEL) && s.n.front < |s.n.order|
    case Serve(node) => Serving(s.r, false) && FirstIs(s, node) && (s.n.anchor.Some? ==> s.n.anchor.value == SENTINEL)
    case ReadLink(node) => Serving(s.r, true) && AtNode(s, node)
    case ReadChain(node, link) => Serving(s.r, true) && AtNode(s, node) && (link.Some? ==> FirstIs(s, link.value))
    case CheckLast(node) => Serving(s.r, true) && AtNode(s, node) && R.NextWaits(s.r)
    case Handoff(after) =>
      Serving(s.r, true) && FirstIs(s, after) && R.NextWaits(s.r)
      && s.n.anchor.Some? && AtNode(s, s.n.anchor.value)
    case Refuse(last) => Refusing(s, last, false)
    case ReadAfter(last) => Refusing(s, last, true)
    case RefuseDone(last) => Refusing(s, last, true) && R.NextWaits(s.r)
    case Close(node) => Closing(s, node)
    case ClearHead(node) => Closing(s, node)
    case CasTail(node) => Closing(s, node) && s.n.next[SENTINEL].None?
    case AwaitNext(node) => Closing(s, node) && s.n.front < |s.n.order|
    case Advance(node) => Closing(s, node) && s.n.next[node].Some?
    case MarkTaken => R.Active(s.r) && !s.r.round.value.woken && R.HasAnswer(s.r) && s.n.anchor == Some(SENTINEL)
    case MarkAdvanced(first) => s.n.anchor.Some? && Closing(s, s.n.anchor.value) && FirstIs(s, first)
    case SetHead(first) => Serving(s.r, true) && s.n.anchor.None? && FirstIs(s, first)
    case Wake => Serving(s.r, true) && s.n.anchor == Some(SENTINEL)
    case Finish => R.Active(s.r) && s.r.round.value.woken && R.HasAnswer(s.r) && s.n.anchor == Some(SENTINEL)
    case Unlock => s.r.round.Some? && s.r.round.value.over && s.n.anchor == Some(SENTINEL)
  }

  /** Requests that have been answered, now or earlier, and not returned yet. */
  predicate Settled(r: R.Requests, q: nat)
    requires R.Wellformed(r) && q < |r.place|
  {
    r.place[q].Answered? || r.place[q].HeldBack? || (R.Active(r) && R.Current(r) == q && R.HasAnswer(r))
  }

  /** A node given to a request belongs to it until it is returned. */
  ghost predicate NodeKept(s: Queue, q: nat)
    requires Wellformed(s) && q < |s.r.place|
  {
    Settled(s.r, q) && s.r.answer[q].Some? && s.r.answer[q].value.Got? ==>
      s.r.answer[q].value.node < |s.n.status| && s.n.status[s.r.answer[q].value.node] == Popped(q)
  }

  ghost predicate Inv(s: Queue) {
    && Wellformed(s) && N.Inv(s.n) && R.Inv(s.r) && StepOk(s)
    && (forall q :: 0 <= q < |s.r.place| ==> NodeKept(s, q))
  }

  lemma InitInv(nodes: nat, clusters: nat, cluster: seq<nat>)
    requires forall t :: 0 <= t < |cluster| ==> cluster[t] < clusters
    ensures Inv(Init(nodes, clusters, cluster))
  {
    N.InitInv(|cluster|, nodes);
    R.InitInv(clusters, cluster);
    hide N.Inv, R.Inv;
  }

  // ---------------------------------------------------------------------------------------------
  // Every access keeps the invariant
  // ---------------------------------------------------------------------------------------------

  lemma Shape(s: Queue)
    requires Inv(s)
    ensures Wellformed(s) && N.Inv(s.n) && R.Inv(s.r) && StepOk(s)
    ensures N.EndsOk(s.n) && |s.n.next| == |s.n.status| > 0
    ensures s.r.round.Some? ==> s.r.round.value.tid < |s.r.phases|
    ensures |s.r.next| == |s.r.answer| == |s.r.place| == |s.r.status|
  {
    N.Facts(s.n);
  }

  lemma KeptAt(s: Queue, q: nat)
    requires Inv(s) && q < |s.r.place|
    ensures NodeKept(s, q)
  {
  }

  /** A linked first node is what the anchor's Next names. */
  lemma LinkIsFirst(s: Queue, a: nat)
    requires Inv(s) && s.n.anchor == Some(a)
    ensures a < |s.n.next| && (s.n.next[a].Some? ==> FirstIs(s, s.n.next[a].value))
  {
    hide Inv, N.Inv, R.Inv;
    Shape(s);
    N.AnchorLink(s.n);
  }

  /** The combiner's accesses can always happen. */
  lemma CombinePossible(s: Queue)
    requires Inv(s) && s.step != NoRound
    ensures Possible(s, CombineStep(s))
  {
    hide Inv, N.Inv, R.Inv, R.Wellformed, N.EndsOk;
    Shape(s);
    RoundFacts(s);
  }

  lemma RoundFacts(s: Queue)
    requires Inv(s)
    ensures R.Wellformed(s.r) && R.RoundOk(s.r)
    ensures R.Active(s.r) ==> R.Current(s.r) < |s.r.next| && s.r.next[R.Current(s.r)].Some?
    ensures s.r.round.Some? ==> s.r.phases[s.r.round.value.tid].Combining?
  {
    hide N.Inv, R.Inv;
    R.Shape(s.r);
    if R.Active(s.r) {
      R.CurrentFacts(s.r);
    }
  }

  /** The anchor, when it is a node, belongs to the last request that got one, and that request is not
      done yet. */
  lemma AnchorOwner(s: Queue)
    requires Inv(s) && s.n.anchor.Some? && s.n.anchor.value != SENTINEL
    ensures R.Active(s.r) && AtNode(s, s.n.anchor.value)
    ensures var q := LastNodeReq(s.r);
      q < |s.r.place| && !s.r.place[q].Answered? && !s.r.place[q].Spare?
      && s.n.anchor.value < |s.n.status| && s.n.status[s.n.anchor.value] == Popped(q)
  {
    hide Inv, N.Inv, R.Inv, R.Wellformed;
    Shape(s);
    RoundFacts(s);
    R.CurrentFacts(s.r);
    KeptAt(s, LastNodeReq(s.r));
  }

  lemma PopPossible(s: Queue, t: nat)
    requires Inv(s) && t < |s.r.phases| && !s.r.phases[t].Away? && !s.r.phases[t].Combining?
    ensures Possible(s, PopStep(s, t))
  {
    hide Inv, N.Inv, R.Inv, R.Wellformed, StepOk;
    Shape(s);
    if s.r.phases[t].Return? {
      R.AnsweredAt(s.r, t);
      KeptAt(s, s.r.phases[t].req);
      if s.n.anchor.Some? && s.n.anchor.value != SENTINEL {
        AnchorOwner(s);
      }
    }
  }

  /** Acts of other threads leave the combiner's requests alone. */
  lemma RoundUntouched(r: R.Requests, r': R.Requests, a: R.Act)
    requires R.Inv(r) && R.CanAct(r, a) && R.ByThread(a) && r' == R.Do(r, a) && R.Wellformed(r') && R.Active(r)
    ensures r'.round == r.round && R.Current(r') == R.Current(r) && R.HasAnswer(r') == R.HasAnswer(r)
    ensures R.NextWaits(r) ==> R.NextWaits(r')
    ensures LastNodeReq(r') == LastNodeReq(r) < |r.answer| == |r'.answer|
    ensures r'.answer[LastNodeReq(r)] == r.answer[LastNodeReq(r)]
  {
    hide R.Inv, R.Wellformed, R.NextWaits;
    RoundStill(r, r', a);
    NextWaitsStill(r, r', a);
    hide R.Do;
    R.Shape(r);
    R.Bounds(r);
    R.CurrentFacts(r);
    R.Bounds(r');
  }

  lemma RoundStill(r: R.Requests, r': R.Requests, a: R.Act)
    requires R.Inv(r) && R.CanAct(r, a) && R.ByThread(a) && r' == R.Do(r, a) && R.Wellformed(r') && R.Active(r)
    ensures r'.round == r.round && R.Current(r') == R.Current(r) && R.HasAnswer(r') == R.HasAnswer(r)
    ensures |r'.answer| == |r.answer| && LastNodeReq(r) < |r.answer| && r'.answer[LastNodeReq(r)] == r.answer[LastNodeReq(r)]
  {
    hide R.Inv, R.Wellformed, R.NextWaits;
    R.Shape(r);
    R.Bounds(r);
    R.OwnFacts(r, a);
    R.CurrentFacts(r);
    if r.round.value.held.Some? {
      R.ReqAt(r, r.round.value.held.value);
    }
  }

  lemma NextWaitsStill(r: R.Requests, r': R.Requests, a: R.Act)
    requires R.Inv(r) && R.CanAct(r, a) && R.ByThread(a) && r' == R.Do(r, a) && R.Wellformed(r') && R.Active(r) && R.Active(r')
    ensures R.NextWaits(r) ==> R.NextWaits(r')
  {
    hide R.Inv, R.Wellformed, R.HasAnswer;
    R.Shape(r);
    R.Bounds(r);
    R.OwnFacts(r, a);
    R.CurrentFacts(r);
    if R.NextWaits(r) {
      R.NextFacts(r);
    }
  }

  predicate ByPusher(op: N.Op) { op.Prepare? || op.SwapTail? || op.StoreLink? || op.FreeNode? }

  /** Operations of others leave the combiner's nodes alone. */
  lemma NodesUntouched(n: N.Nodes, n': N.Nodes, op: N.Op)
    requires N.Inv(n) && N.CanDo(n, op) && ByPusher(op) && n' == N.Do(n, op) && N.Wellformed(n')
    ensures n'.anchor == n.anchor && n'.front == n.front && |n'.order| >= |n.order| && |n'.status| == |n.status| == |n.next| == |n'.next|
    ensures N.FirstLinked(n) ==> N.FirstLinked(n') && n'.order[n'.front] == n.order[n.front]
    ensures n.anchor.Some? && n.anchor.value != SENTINEL && n.anchor.value < |n.next| ==>
      (n.next[n.anchor.value].Some? ==> n'.next[n.anchor.value].Some?) && (n.next[SENTINEL].None? ==> n'.next[SENTINEL].None?)
    ensures forall x :: 0 <= x < |n.status| && n.status[x].Popped? && op != N.FreeNode(x) ==> n'.status[x] == n.status[x]
  {
    hide N.Inv, N.Wellformed;
    N.Facts(n);
    N.Bounds(n);
    if op.Prepare? || op.SwapTail? || op.StoreLink? {
      N.PushAt(n, op.tid);
    }
  }

  lemma OpKeeps(n: N.Nodes, op: N.Op)
    requires N.Inv(n) && N.CanDo(n, op)
    ensures N.Wellformed(n) && N.Inv(N.Do(n, op)) && N.Wellformed(N.Do(n, op))
    ensures |N.Do(n, op).push| == |n.push| && |N.Do(n, op).status| == |n.status| == |n.next| == |N.Do(n, op).next|
  {
    N.OpInv(n, op);
    N.Sizes(n, op);
    N.Facts(N.Do(n, op));
    hide N.Inv, N.Do;
  }

  lemma ActKeeps(r: R.Requests, a: R.Act)
    requires R.Inv(r) && R.CanAct(r, a)
    ensures R.Wellformed(r) && R.Inv(R.Do(r, a)) && R.Wellformed(R.Do(r, a))
    ensures |R.Do(r, a).phases| == |r.phases| && |R.Do(r, a).place| == |r.place|
    ensures R.Do(r, a).cluster == r.cluster && |R.Do(r, a).chain| == |r.chain|
  {
    R.ActInv(r, a);
    R.Sizes(r, a);
    R.Shape(R.Do(r, a));
    hide R.Inv, R.Do;
  }

  /** The parts stay sound under any possible effect. */
  lemma PartsKeep(s: Queue, e: Effect)
    requires Inv(s) && Possible(s, e)
    ensures var s' := Perform(s, e);
      Wellformed(s') && N.Inv(s'.n) && R.Inv(s'.r) && |s'.n.status| == |s.n.status| && |s'.r.place| == |s.r.place|
  {
    hide Inv, N.Inv, R.Inv, N.Do, R.Do, N.Wellformed, R.Wellformed, N.CanDo, R.CanAct;
    Shape(s);
    if e.op.Some? {
      OpKeeps(s.n, e.op.value);
    }
    if e.act.Some? {
      ActKeeps(s.r, e.act.value);
    }
  }

  // The step condition after the combiner's own accesses.

  lemma StepOfGiving(s: Queue, s': Queue)
    requires Inv(s) && s.step != NoRound && Possible(s, CombineStep(s)) && s' == Perform(s, CombineStep(s)) && Wellformed(s')
    requires CombineStep(s).act.Some?
    requires s.step.Serve? || s.step.Refuse?
    ensures StepOk(s')
  {
    hide Inv, N.Inv, R.Inv, R.Wellformed, N.Wellformed;
    Shape(s);
    RoundFacts(s);
    R.Bounds(s.r);
    if R.Active(s.r) {
      R.CurrentFacts(s.r);
      R.ChainAt(s.r, s.r.round.value.cluster);
    }
    if s.n.anchor.Some? {
      LinkIsFirst(s, s.n.anchor.value);
    }
  }

  /** The round marks its current request done, or keeps it back, and goes on. */
  lemma StepOfMoving(s: Queue, s': Queue)
    requires Inv(s) && (s.step.CheckLast? || s.step.Handoff? || s.step.RefuseDone?) && CombineStep(s).act.Some?
    requires Possible(s, CombineStep(s)) && s' == Perform(s, CombineStep(s)) && Wellformed(s')
    ensures StepOk(s')
  {
    hide Inv, N.Inv, R.Inv, R.Wellformed, N.Wellformed;
    Shape(s);
    RoundFacts(s);
    R.Bounds(s.r);
    R.CurrentFacts(s.r);
    R.ChainAt(s.r, s.r.round.value.cluster);
    if s.n.anchor.Some? {
      LinkIsFirst(s, s.n.anchor.value);
    }
  }

  /** The last accesses of a round. */
  lemma StepOfEnding(s: Queue, s': Queue)
    requires Inv(s) && (s.step.Wake? || s.step.Finish? || s.step.Unlock?)
    requires Possible(s, CombineStep(s)) && s' == Perform(s, CombineStep(s)) && Wellformed(s')
    ensures StepOk(s')
  {
    hide Inv, N.Inv, R.Inv, R.Wellformed, N.Wellformed, R.NextWaits;
    Shape(s);
    RoundFacts(s);
    R.Bounds(s.r);
    if R.Active(s.r) {
      R.CurrentFacts(s.r);
      R.ChainAt(s.r, s.r.round.value.cluster);
    }
  }

  lemma StepOfReleasing(s: Queue, s': Queue)
    requires Inv(s) && (s.step.MarkTaken? || s.step.MarkAdvanced?) && CombineStep(s).act.Some?
    requires Possible(s, CombineStep(s)) && s' == Perform(s, CombineStep(s)) && Wellformed(s')
    ensures StepOk(s')
  {
    hide Inv, N.Inv, R.Inv, R.Wellformed, N.Wellformed, R.NextWaits;
    Shape(s);
    RoundFacts(s);
    R.Bounds(s.r);
    R.CurrentFacts(s.r);
  }

  /** Steps of a round that is still serving. */
  predicate InService(p: Step) {
    p.CheckFirst? || p.CheckTail? || p.AwaitFirst? || p.ReadLink? || p.ReadChain? || p.CheckLast?
  }

  lemma StepOfLooking(s: Queue, s': Queue)
    requires Inv(s) && InService(s.step) && Possible(s, CombineStep(s)) && s' == Perform(s, CombineStep(s)) && Wellformed(s')
    requires CombineStep(s).act.None?
    ensures StepOk(s')
  {
    hide Inv, N.Inv, R.Inv, R.Wellformed, N.Wellformed;
    Shape(s);
    RoundFacts(s);
    R.Bounds(s.r);
    if R.Active(s.r) {
      R.CurrentFacts(s.r);
    }
    if s.n.anchor.Some? {
      LinkIsFirst(s, s.n.anchor.value);
    }
  }

  lemma StepOfRepair(s: Queue, s': Queue)
    requires Inv(s) && s.step != NoRound && !InService(s.step)
    requires Possible(s, CombineStep(s)) && s' == Perform(s, CombineStep(s)) && Wellformed(s')
    requires CombineStep(s).act.None?
    ensures StepOk(s')
  {
    hide Inv, N.Inv, R.Inv, R.Wellformed, N.Wellformed;
    Shape(s);
    RoundFacts(s);
    R.Bounds(s.r);
    if R.Active(s.r) {
      R.CurrentFacts(s.r);
    }
    if s.n.anchor.Some? {
      LinkIsFirst(s, s.n.anchor.value);
    }
  }

  lemma StepOfCombine(s: Queue, s': Queue)
    requires Inv(s) && s.step != NoRound && Possible(s, CombineStep(s)) && s' == Perform(s, CombineStep(s)) && Wellformed(s')
    ensures StepOk(s')
  {
    hide Inv, N.Inv, R.Inv, N.EndsOk, Wellformed, Perform, Possible, StepOk;
    Shape(s);
    if CombineStep(s).act.None? {
      if InService(s.step) {
        StepOfLooking(s, s');
      } else {
        StepOfRepair(s, s');
      }
    } else if s.step.Serve? || s.step.Refuse? {
      StepOfGiving(s, s');
    } else if s.step.CheckLast? || s.step.Handoff? || s.step.RefuseDone? {
      StepOfMoving(s, s');
    } else if s.step.MarkTaken? || s.step.MarkAdvanced? {
      StepOfReleasing(s, s');
    } else {
      StepOfEnding(s, s');
    }
  }

  /** The step condition survives what other threads do. */
  lemma StepOfOthers(s: Queue, s': Queue, e: Effect)
    requires Inv(s) && Possible(s, e) && s' == Perform(s, e) && Wellformed(s') && e.step == s.step
    requires (e.op.Some? ==> ByPusher(e.op.value)) && (e.act.Some? ==> R.ByThread(e.act.value) && !e.act.value.TakeLock?)
    ensures StepOk(s')
  {
    hide Inv, N.Inv, R.Inv, R.Wellformed, N.Wellformed, N.EndsOk, N.Do, R.Do, R.CanAct, N.CanDo, R.NextWaits, R.HasAnswer,
         R.Current, N.FirstLinked, R.ByThread;
    Shape(s);
    if s.n.anchor.Some? {
      LinkIsFirst(s, s.n.anchor.value);
      if s.n.anchor.value != SENTINEL {
        AnchorOwner(s);
      }
    }
    if e.op.Some? {
      NodesUntouched(s.n, s'.n, e.op.value);
    }
    if e.act.Some? {
      RoundSame(s.r, s'.r, e.act.value);
      if R.Active(s.r) {
        RoundUntouched(s.r, s'.r, e.act.value);
      }
    }
  }

  lemma RoundSame(r: R.Requests, r': R.Requests, a: R.Act)
    requires R.Wellformed(r) && R.CanAct(r, a) && R.ByThread(a) && !a.TakeLock? && r' == R.Do(r, a)
    ensures r'.round == r.round
  {
  }

  /** The step condition of a fresh round. */
  lemma StepOfTakeLock(s: Queue, s': Queue, t: nat)
    requires Inv(s) && R.CanAct(s.r, R.TakeLock(t)) && Wellformed(s')
    requires s' == Queue(s.n, R.Do(s.r, R.TakeLock(t)), CheckFirst)
    ensures StepOk(s')
  {
    hide Inv, N.Inv, R.Inv, R.Wellformed, N.Wellformed;
    Shape(s);
    R.Shape(s.r);
    R.Bounds(s.r);
    R.DesignatedAt(s.r, t);
    R.ChainAt(s.r, s.r.cluster[t]);
  }

  /** A request is settled after a thread's own act only if it was before, with the same answer. */
  lemma SettledBefore(r: R.Requests, r': R.Requests, a: R.Act, q: nat)
    requires R.Inv(r) && R.CanAct(r, a) && R.ByThread(a) && r' == R.Do(r, a) && R.Wellformed(r')
    requires q < |r.place| == |r'.place| && Settled(r', q)
    ensures Settled(r, q) && r'.answer[q] == r.answer[q] && a != R.Recycle(r.owner[q])
  {
    hide R.Inv, R.Wellformed, R.Do, Settled;
    R.Shape(r);
    R.Bounds(r);
    if a.TakeLock? {
      SettledBeforeTakeLock(r, r', a.tid, q);
    } else if a.Recycle? {
      SettledBeforeRecycle(r, r', a.tid, q);
    } else {
      SettledBeforeOther(r, r', a, q);
    }
  }

  lemma SettledBeforeTakeLock(r: R.Requests, r': R.Requests, t: nat, q: nat)
    requires R.Inv(r) && R.CanAct(r, R.TakeLock(t)) && r' == R.Do(r, R.TakeLock(t)) && R.Wellformed(r')
    requires q < |r.place| == |r'.place| && Settled(r', q)
    ensures Settled(r, q) && r'.answer[q] == r.answer[q]
  {
    hide R.Inv, R.Wellformed;
    R.Shape(r);
    R.Bounds(r);
    R.DesignatedAt(r, t);
    R.ChainAt(r, r.cluster[t]);
  }

  lemma SettledBeforeRecycle(r: R.Requests, r': R.Requests, t: nat, q: nat)
    requires R.Inv(r) && R.CanAct(r, R.Recycle(t)) && r' == R.Do(r, R.Recycle(t)) && R.Wellformed(r')
    requires q < |r.place| == |r'.place| && Settled(r', q)
    ensures Settled(r, q) && r'.answer[q] == r.answer[q] && q < |r.owner| && t != r.owner[q]
  {
    hide R.Inv, R.Wellformed;
    R.Shape(r);
    R.Bounds(r);
    R.ReqAt(r, q);
    R.AnsweredAt(r, t);
    if R.Active(r) {
      R.CurrentFacts(r);
    }
  }

  lemma SettledBeforeOther(r: R.Requests, r': R.Requests, a: R.Act, q: nat)
    requires (a.Reset? || a.SwapIn? || a.Fill? || a.See?) && R.Inv(r) && R.CanAct(r, a) && r' == R.Do(r, a) && R.Wellformed(r')
    requires q < |r.place| == |r'.place| && Settled(r', q)
    ensures Settled(r, q) && r'.answer[q] == r.answer[q]
  {
    hide R.Inv, R.Wellformed, R.NextWaits, R.HasAnswer, R.Current;
    R.Shape(r);
    R.Bounds(r);
    R.OwnFacts(r, a);
    if R.Active(r) {
      R.CurrentFacts(r);
      RoundUntouched(r, r', a);
    }
  }

  /** The node a returning thread hands over is its request's. */
  lemma FreesOwn(s: Queue, t: nat)
    requires Inv(s) && t < |s.r.phases| && s.r.phases[t].Return?
    ensures var q, e := s.r.phases[t].req, PopStep(s, t);
      && q < |s.r.place| && s.r.owner[q] == t && e.act == Some(R.Recycle(t))
      && (e.op.Some? ==> e.op.value.FreeNode? && e.op.value.freed < |s.n.status| && s.n.status[e.op.value.freed] == Popped(q))
  {
    hide Inv, N.Inv, R.Inv, StepOk;
    Shape(s);
    R.AnsweredAt(s.r, t);
    KeptAt(s, s.r.phases[t].req);
  }

  lemma KeptOfOthers(s: Queue, s': Queue, e: Effect, q: nat)
    requires Inv(s) && Possible(s, e) && s' == Perform(s, e) && Wellformed(s')
    requires (e.op.Some? ==> ByPusher(e.op.value)) && (e.act.Some? ==> R.ByThread(e.act.value))
    requires e.op.Some? && e.op.value.FreeNode? ==>
      e.act.Some? && e.act.value.Recycle? && s.r.phases[e.act.value.tid].Return? && e == PopStep(s, e.act.value.tid)
    requires q < |s.r.place| == |s'.r.place| && Settled(s'.r, q)
    ensures NodeKept(s', q)
  {
    hide Inv, N.Inv, R.Inv, R.Wellformed, N.Wellformed, N.EndsOk, N.Do, R.Do, StepOk, N.FirstLinked, R.ByThread, Settled;
    Shape(s);
    if e.act.Some? {
      SettledBefore(s.r, s'.r, e.act.value, q);
    }
    KeptAt(s, q);
    if e.op.Some? {
      NodesUntouched(s.n, s'.n, e.op.value);
      if e.op.value.FreeNode? {
        FreesOwn(s, e.act.value.tid);
      }
    }
  }

  lemma KeptOfServe(s: Queue, s': Queue, q: nat)
    requires Inv(s) && s.step.Serve? && Possible(s, CombineStep(s)) && s' == Perform(s, CombineStep(s)) && Wellformed(s')
    requires q < |s.r.place| == |s'.r.place|
    ensures NodeKept(s', q)
  {
    hide Inv, N.Inv, R.Inv, R.Wellformed, N.EndsOk;
    Shape(s);
    R.Bounds(s.r);
    R.CurrentFacts(s.r);
    KeptAt(s, q);
  }

  lemma KeptOfCombine(s: Queue, s': Queue, q: nat)
    requires Inv(s) && s.step != NoRound && !s.step.Serve?
    requires Possible(s, CombineStep(s)) && s' == Perform(s, CombineStep(s)) && Wellformed(s')
    requires q < |s.r.place| == |s'.r.place|
    requires CombineStep(s).act.Some?
    ensures NodeKept(s', q)
  {
    hide Inv, N.Inv, R.Inv, R.Wellformed, N.EndsOk, N.Wellformed, NodeKept;
    Shape(s);
    if s.step.MarkTaken? || s.step.MarkAdvanced? || s.step.Wake? || s.step.Unlock? {
      KeptOfEnding(s, s', q);
    } else {
      KeptOfMoving(s, s', q);
    }
  }

  lemma KeptOfMoving(s: Queue, s': Queue, q: nat)
    requires Inv(s) && (s.step.Refuse? || s.step.CheckLast? || s.step.Handoff? || s.step.RefuseDone? || s.step.Finish?)
    requires Possible(s, CombineStep(s)) && s' == Perform(s, CombineStep(s)) && Wellformed(s')
    requires q < |s.r.place| == |s'.r.place|
    requires CombineStep(s).act.Some?
    ensures NodeKept(s', q)
  {
    hide Inv, N.Inv, R.Inv, R.Wellformed, N.EndsOk, N.Wellformed;
    Shape(s);
    R.Bounds(s.r);
    RoundFacts(s);
    KeptAt(s, q);
    R.CurrentFacts(s.r);
    R.ChainAt(s.r, s.r.round.value.cluster);
  }

  lemma KeptOfEnding(s: Queue, s': Queue, q: nat)
    requires Inv(s) && (s.step.MarkTaken? || s.step.MarkAdvanced? || s.step.Wake? || s.step.Unlock?)
    requires Possible(s, CombineStep(s)) && s' == Perform(s, CombineStep(s)) && Wellformed(s')
    requires q < |s.r.place| == |s'.r.place|
    requires CombineStep(s).act.Some?
    ensures NodeKept(s', q)
  {
    hide Inv, N.Inv, R.Inv, R.Wellformed, N.EndsOk, N.Wellformed, R.NextWaits;
    Shape(s);
    R.Bounds(s.r);
    RoundFacts(s);
    KeptAt(s, q);
    if R.Active(s.r) {
      R.CurrentFacts(s.r);
      R.ChainAt(s.r, s.r.round.value.cluster);
    }
  }

  lemma KeptOfQuiet(s: Queue, s': Queue, q: nat)
    requires Inv(s) && s.step != NoRound && !s.step.Serve?
    requires Possible(s, CombineStep(s)) && s' == Perform(s, CombineStep(s)) && Wellformed(s')
    requires q < |s.r.place| == |s'.r.place|
    requires !(CombineStep(s).act.Some?)
    ensures NodeKept(s', q)
  {
    hide Inv, N.Inv, R.Inv, R.Wellformed, N.EndsOk, N.Wellformed;
    Shape(s);
    R.Bounds(s.r);
    RoundFacts(s);
    KeptAt(s, q);
  }

  // ---------------------------------------------------------------------------------------------
  // Main results
  // ---------------------------------------------------------------------------------------------

  /** The combiner is the thread that the round names, and only it makes combining accesses. */
  predicate Combines(s: Queue, a: Action)
    requires Wellformed(s) && Enabled(s, a)
  {
    a.Pop? && s.r.phases[a.tid].Combining? && s.step != NoRound
  }

  lemma ActionPossible(s: Queue, a: Action)
    requires Inv(s) && Enabled(s, a)
    ensures Possible(s, EffectOf(s, a))
    ensures a.Pop? && s.r.phases[a.tid].Combining? ==> s.step != NoRound && s.r.round.Some? && s.r.round.value.tid == a.tid
  {
    hide Inv, N.Inv, R.Inv, N.EndsOk;
    Shape(s);
    if a.Pop? {
      if s.r.phases[a.tid].Combining? {
        R.ThreadAt(s.r, a.tid);
        CombinePossible(s);
      } else {
        PopPossible(s, a.tid);
      }
    }
  }

  function Apply(s: Queue, a: Action): Queue
    requires Wellformed(s) && Enabled(s, a) && Possible(s, EffectOf(s, a))
  {
    Perform(s, EffectOf(s, a))
  }

  /** What any access of a thread that does not combine consists of. */
  lemma OthersEffect(s: Queue, a: Action)
    requires Wellformed(s) && Enabled(s, a) && !(a.Pop? && s.r.phases[a.tid].Combining?)
    ensures var e := EffectOf(s, a);
      && (e.op.Some? ==> ByPusher(e.op.value)) && (e.act.Some? ==> R.ByThread(e.act.value))
      && (if e.act.Some? && e.act.value.TakeLock? then
            e == Effect(None, Some(R.TakeLock(a.tid)), CheckFirst)
          else e.step == s.step)
      && (e.op.Some? && e.op.value.FreeNode? ==>
            e.act.Some? && e.act.value.Recycle? && s.r.phases[e.act.value.tid].Return? && e == PopStep(s, e.act.value.tid))
  {
    hide N.Wellformed, R.Wellformed, N.CanDo;
  }

  lemma OthersStepOk(s: Queue, s': Queue, a: Action)
    requires Inv(s) && Wellformed(s) && Enabled(s, a) && !(a.Pop? && s.r.phases[a.tid].Combining?)
    requires Possible(s, EffectOf(s, a)) && s' == Perform(s, EffectOf(s, a)) && Wellformed(s')
    ensures StepOk(s')
  {
    hide Inv, Wellformed, Enabled, EffectOf, Perform, Possible, StepOk, R.ByThread, ByPusher;
    var e := EffectOf(s, a);
    OthersEffect(s, a);
    if e.act.Some? && e.act.value.TakeLock? {
      TakesLock(s, e, a.tid);
      StepOfTakeLock(s, s', a.tid);
    } else {
      StepOfOthers(s, s', e);
    }
  }

  lemma TakesLock(s: Queue, e: Effect, t: nat)
    requires Wellformed(s) && Possible(s, e) && e == Effect(None, Some(R.TakeLock(t)), CheckFirst)
    ensures R.CanAct(s.r, R.TakeLock(t)) && Perform(s, e) == Queue(s.n, R.Do(s.r, R.TakeLock(t)), CheckFirst)
  {
  }

  lemma StepInv(s: Queue, a: Action)
    requires Inv(s) && Enabled(s, a)
    ensures Possible(s, EffectOf(s, a)) && Inv(Apply(s, a))
  {
    ActionPossible(s, a);
    Shape(s);
    hide N.Inv, R.Inv, N.EndsOk, Wellformed, Enabled, EffectOf, Perform, Possible, StepOk, R.ByThread, ByPusher, Settled,
         NodeKept, CombineStep, PopStep;
    var e, s' := EffectOf(s, a), Apply(s, a);
    PartsKeep(s, e);
    if a.Pop? && s.r.phases[a.tid].Combining? {
      CombineIs(s, a);
      StepOfCombine(s, s');
    } else {
      OthersEffect(s, a);
      OthersStepOk(s, s', a);
    }
    forall q | 0 <= q < |s'.r.place|
      ensures NodeKept(s', q)
    {
      KeptOfAction(s, s', a, q);
    }
  }

  lemma CombineIs(s: Queue, a: Action)
    requires Wellformed(s) && Enabled(s, a) && Combines(s, a)
    ensures EffectOf(s, a) == CombineStep(s)
  {
  }

  lemma KeptOfAction(s: Queue, s': Queue, a: Action, q: nat)
    requires Inv(s) && Wellformed(s) && Enabled(s, a) && Possible(s, EffectOf(s, a)) && s' == Apply(s, a) && Wellformed(s')
    requires a.Pop? && s.r.phases[a.tid].Combining? ==> s.step != NoRound
    requires q < |s.r.place| == |s'.r.place|
    ensures NodeKept(s', q)
  {
    hide Inv, N.Inv, R.Inv, N.Wellformed, R.Wellformed, EffectOf, Perform, Possible, StepOk, R.ByThread, ByPusher, Settled,
         CombineStep, PopStep, N.CanDo;
    if a.Pop? && s.r.phases[a.tid].Combining? {
      CombineIs(s, a);
      if s.step.Serve? {
        KeptOfServe(s, s', q);
      } else if CombineStep(s).act.Some? {
        KeptOfCombine(s, s', q);
      } else {
        KeptOfQuiet(s, s', q);
      }
    } else if Settled(s'.r, q) {
      OthersEffect(s, a);
      KeptOfOthers(s, s', EffectOf(s, a), q);
    }
  }

  /** The nodes a pusher's swap adds to the abstract queue, and those the combiner gives away. */
  function Pushed(s: Queue, a: Action): seq<nat>
    requires Wellformed(s) && Enabled(s, a)
  {
    if a.Push? && s.n.push[a.tid].Prepared? then [s.n.push[a.tid].node] else []
  }

  function Served(s: Queue, a: Action): seq<nat>
    requires Wellformed(s) && Enabled(s, a)
  {
    if Combines(s, a) && s.step.Serve? then [s.step.node] else []
  }

  lemma FrontBound(s: Queue)
    requires Inv(s)
    ensures Wellformed(s) && s.n.front <= |s.n.order|
  {
  }

  /** Which operations move the ends of the abstract queue. */
  lemma EndsMove(n: N.Nodes, op: N.Op)
    requires N.Wellformed(n) && N.CanDo(n, op) && n.front <= |n.order|
    ensures N.Do(n, op).order == n.order + if op.SwapTail? then [n.push[op.tid].node] else []
    ensures N.Do(n, op).front == n.front + if op.Take? then 1 else 0
    ensures op.Take? ==> n.front < |n.order|
  {
  }

  /** The pop side of the abstract queue is the serving step alone. */
  lemma OnlyServeTakes(s: Queue, a: Action)
    requires Inv(s) && Wellformed(s) && Enabled(s, a)
    ensures var e := EffectOf(s, a);
      && (e.op.Some? && e.op.value.Take? <==> Combines(s, a) && s.step.Serve?)
      && (e.op.Some? && e.op.value.SwapTail? <==> a.Push? && s.n.push[a.tid].Prepared?)
      && (e.op.Some? && e.op.value.SwapTail? ==> e.op.value.tid == a.tid)
      && (Combines(s, a) && s.step.Serve? ==> FirstIs(s, s.step.node))
  {
    hide N.Inv, R.Inv, N.Wellformed, R.Wellformed, N.CanDo, N.FirstLinked;
  }

  /** Every access is a step of a FIFO queue: a pusher's swap appends, giving a node to a request takes
      the first one, and nothing else changes the contents. */
  lemma RefinesFifo(s: Queue, a: Action)
    requires Inv(s) && Enabled(s, a)
    ensures Possible(s, EffectOf(s, a)) && Inv(Apply(s, a))
    ensures s.n.front <= |s.n.order| && Apply(s, a).n.front <= |Apply(s, a).n.order|
    ensures N.Contents(s.n) + Pushed(s, a) == Served(s, a) + N.Contents(Apply(s, a).n)
  {
    hide Inv, EffectOf, Enabled, N.Wellformed, R.Wellformed, N.CanDo, R.CanAct, N.Do, R.Do;
    FrontBound(s);
    StepInv(s, a);
    FrontBound(Apply(s, a));
    OnlyServeTakes(s, a);
    EnabledTid(s, a);
    var e := EffectOf(s, a);
    if e.op.Some? {
      EndsMove(s.n, e.op.value);
    }
  }

  lemma EnabledTid(s: Queue, a: Action)
    requires Wellformed(s) && Enabled(s, a)
    ensures a.tid < |s.r.phases| == |s.n.push|
  {
  }

  /** A node is given to the oldest unanswered request of the combiner's chain. */
  lemma ServesInChainOrder(s: Queue, a: Action)
    requires Inv(s) && Enabled(s, a) && Combines(s, a) && s.step.Serve?
    ensures R.Active(s.r) && s.r.round.value.tid == a.tid && s.r.round.value.cluster == s.r.cluster[a.tid] < |s.r.chain|
    ensures Possible(s, EffectOf(s, a)) && Inv(Apply(s, a))
    ensures var c, s' := s.r.cluster[a.tid], Apply(s, a);
      && |s.r.answers[c]| == s.r.front[c] < |s.r.chain[c]|
      && s'.r.answers[c] == s.r.answers[c] + [R.Got(s.step.node)]
      && s'.r.answer[s.r.chain[c][s.r.front[c]]] == Some(R.Got(s.step.node))
      && s'.r.chain == s.r.chain && s'.r.front == s.r.front
  {
    StepInv(s, a);
    ActionPossible(s, a);
    hide Inv, N.Inv, R.Inv, N.Wellformed, R.Wellformed, N.CanDo, N.Do, N.EndsOk;
    Shape(s);
    R.Shape(s.r);
    R.Bounds(s.r);
    R.CurrentFacts(s.r);
    R.ChainAt(s.r, s.r.round.value.cluster);
  }

  /** The walk that refuses requests. */
  predicate InRefusal(p: Step) { p.Refuse? || p.ReadAfter? || p.RefuseDone? }

  /** Whatever access of whatever thread it is, a round starts refusing only at a moment when the
      abstract queue is empty, and at its two tests of Tail exactly then. */
  lemma RefusesOnlyWhenEmpty(s: Queue, a: Action)
    requires Inv(s) && Enabled(s, a)
    ensures Possible(s, EffectOf(s, a)) && s.n.front <= |s.n.order|
    ensures !InRefusal(s.step) && InRefusal(Apply(s, a).step) ==> Combines(s, a) && N.Contents(s.n) == []
    ensures Combines(s, a) && (s.step.CheckTail? || s.step.CheckLast?) ==>
      (Apply(s, a).step.Refuse? <==> N.Contents(s.n) == [])
  {
    ActionPossible(s, a);
    FrontBound(s);
    hide Inv, N.Inv, R.Inv, N.Wellformed, R.Wellformed, N.CanDo;
    Shape(s);
    if Combines(s, a) && (s.step.CheckTail? || s.step.CheckLast?) {
      N.TailAtAnchor(s.n);
    }
  }

  /** Which access records a refusal, and which an answer with a node. */
  lemma AnswersGrow(s: Queue, a: Action, c: nat)
    requires Inv(s) && Enabled(s, a) && c < |s.r.answers|
    ensures Possible(s, EffectOf(s, a)) && |Apply(s, a).r.answers| == |s.r.answers|
    ensures Apply(s, a).r.answers[c] != s.r.answers[c] ==>
      && Combines(s, a) && s.r.round.Some? && c == s.r.round.value.cluster
      && ((s.step.Refuse? && Apply(s, a).r.answers[c] == s.r.answers[c] + [R.Refused])
          || (s.step.Serve? && Apply(s, a).r.answers[c] == s.r.answers[c] + [R.Got(s.step.node)]))
  {
    ActionPossible(s, a);
    Shape(s);
    hide Inv, N.Inv, R.Inv, StepOk, Combines, EffectOf, Enabled, Wellformed, R.CanAct, R.Do, N.CanDo, N.Do, N.EndsOk;
    WhoAnswers(s, a);
    var e := EffectOf(s, a);
    if e.act.Some? {
      AnswersOfAct(s.r, e.act.value, c);
    }
  }

  lemma WhoAnswers(s: Queue, a: Action)
    requires Wellformed(s) && Enabled(s, a)
    ensures var e := EffectOf(s, a);
      e.act.Some? && e.act.value.Give? ==>
        && Combines(s, a)
        && ((s.step.Refuse? && e.act == Some(R.Give(R.Refused))) || (s.step.Serve? && e.act == Some(R.Give(R.Got(s.step.node)))))
  {
    hide N.Wellformed, R.Wellformed, N.CanDo;
  }

  lemma AnswersOfAct(r: R.Requests, a: R.Act, c: nat)
    requires R.Wellformed(r) && R.CanAct(r, a) && c < |r.answers|
    ensures |R.Do(r, a).answers| == |r.answers|
    ensures R.Do(r, a).answers[c] != r.answers[c] ==>
      a.Give? && r.round.Some? && c == r.round.value.cluster && R.Do(r, a).answers[c] == r.answers[c] + [a.a]
  {
  }

  /** A thread returns what was recorded, once and for all, for its position in the chain. */
  lemma ReturnsItsAnswer(s: Queue, t: nat)
    requires Inv(s) && t < |s.r.phases| && s.r.phases[t].Return?
    ensures var q := s.r.phases[t].req;
      && q < |s.r.at| && s.r.at[q].0 < |s.r.chain| && s.r.at[q].1 < |s.r.chain[s.r.at[q].0]|
      && s.r.at[q].1 < |s.r.answers[s.r.at[q].0]| && s.r.chain[s.r.at[q].0][s.r.at[q].1] == q
      && s.r.answer[q] == Some(s.r.answers[s.r.at[q].0][s.r.at[q].1])
    ensures s.n.front <= |s.n.order| && forall u :: 0 <= u < |s.r.phases| && u != t && R.ReqOf(s.r.phases[u]).Some? ==>
      s.r.phases[u].req != s.r.phases[t].req
  {
    hide Inv, N.Inv, R.Inv, N.Wellformed, R.Wellformed;
    FrontBound(s);
    Shape(s);
    R.Shape(s.r);
    R.Bounds(s.r);
    R.AnsweredAt(s.r, t);
    forall u | 0 <= u < |s.r.phases| && u != t && R.ReqOf(s.r.phases[u]).Some?
      ensures s.r.phases[u].req != s.r.phases[t].req
    {
      R.ThreadAt(s.r, u);
    }
  }

  /** Returning, a thread hands over the node its request was given, if any, and keeps the request. */
  lemma ReturnHandsOver(s: Queue, t: nat)
    requires Inv(s) && Enabled(s, Pop(t)) && s.r.phases[t].Return?
    ensures Possible(s, EffectOf(s, Pop(t)))
    ensures var q, s' := s.r.phases[t].req, Apply(s, Pop(t));
      && q < |s.r.answer| && |s'.r.phases| == |s'.r.pool| == |s.r.phases| && s'.r.phases[t].Away? && s'.r.pool[t] == q
      && match s.r.answer[q]
         case Some(Got(n)) => n < |s.n.status| && s.n.status[n] == Popped(q) && s'.n == s.n.(status := s.n.status[n := Free])
         case _ => s'.n == s.n
  {
    ActionPossible(s, Pop(t));
    FreesOwn(s, t);
    Shape(s);
    hide Inv, N.Inv, R.Inv, N.Wellformed, R.Wellformed, N.EndsOk, StepOk;
  }

  /** Each cluster has exactly one designated combiner.  While no round serves the cluster, it is the
      owner of its oldest unanswered request, the only one in the chain marked Combine.  While a round
      serves it, it is the round's thread, whose own request keeps its mark as long as it is at the
      front, and nobody else is told to combine, until the round tells its successor: from then on
      until it marks its last request done, the request after the front one is marked too, its owner
      may see that and want the lock, and still only the round's thread combines. */
  lemma OneCombiner(s: Queue, c: nat, p: nat, t: nat)
    requires Inv(s) && c < |s.r.chain| && t < |s.r.phases| && s.r.cluster[t] == c
    ensures s.r.front[c] < |s.r.chain[c]|
    ensures s.r.front[c] <= p < |s.r.chain[c]| && !R.ActiveOn(s.r, c) ==>
      (s.r.status[s.r.chain[c][p]].Combine? <==> p == s.r.front[c])
    ensures s.r.phases[t].WantLock? && !R.ActiveOn(s.r, c) ==> s.r.phases[t].req == s.r.chain[c][s.r.front[c]]
    ensures s.r.front[c] <= p < |s.r.chain[c]| && R.ActiveOn(s.r, c) ==>
      (s.r.status[s.r.chain[c][p]].Combine? <==>
         || (p == s.r.front[c] && R.Mine(s.r) == Some(s.r.chain[c][p]))
         || (p == s.r.front[c] + 1 && s.r.round.value.woken))
    ensures s.r.phases[t].Combining? ==> s.r.round.Some? && t == s.r.round.value.tid
    ensures s.r.phases[t].WantLock? && R.ActiveOn(s.r, c) ==>
      && s.r.round.value.woken && s.r.front[c] + 1 < |s.r.chain[c]|
      && s.r.phases[t].req == s.r.chain[c][s.r.front[c] + 1]
  {
    hide Inv, N.Inv, R.Inv, N.Wellformed, R.Wellformed, R.Mine;
    Shape(s);
    R.Bounds(s.r);
    R.ChainAt(s.r, c);
    if s.r.front[c] <= p < |s.r.chain[c]| {
      MarkedAt(s.r, c, p);
    }
    ToldAt(s.r, t);
  }

  /** Which requests of a chain are marked Combine. */
  lemma MarkedAt(r: R.Requests, c: nat, p: nat)
    requires R.Inv(r) && R.Wellformed(r) && c < |r.chain| && r.front[c] <= p < |r.chain[c]|
    ensures r.chain[c][p] < |r.status|
    ensures r.status[r.chain[c][p]].Combine? <==>
      if R.ActiveOn(r, c) then
        || (p == r.front[c] && R.Mine(r) == Some(r.chain[c][p]))
        || (p == r.front[c] + 1 && r.round.value.woken)
      else p == r.front[c]
  {
    hide R.Inv, R.Wellformed;
    R.Shape(r);
    R.Bounds(r);
    R.PosAt(r, c, p);
  }

  /** Who has been told. */
  lemma ToldAt(r: R.Requests, t: nat)
    requires R.Inv(r) && R.Wellformed(r) && t < |r.phases|
    ensures r.phases[t].Combining? ==> r.round.Some? && t == r.round.value.tid
    ensures r.phases[t].WantLock? ==>
      var c := r.cluster[t];
      c < |r.chain| && if R.ActiveOn(r, c) then
        r.round.value.woken && r.front[c] + 1 < |r.chain[c]| && r.phases[t].req == r.chain[c][r.front[c] + 1]
      else r.front[c] < |r.chain[c]| && r.phases[t].req == r.chain[c][r.front[c]]
  {
    hide R.Inv, R.Wellformed, R.Recorded;
    R.Shape(r);
    R.Bounds(r);
    R.ThreadAt(r, t);
    if r.phases[t].WantLock? {
      R.OwnAt(r, t);
      if R.Active(r) {
        R.CurrentFacts(r);
        R.ThreadAt(r, r.round.value.tid);
      }
    }
  }

  // ---------------------------------------------------------------------------------------------
  // Whole runs
  // ---------------------------------------------------------------------------------------------

  ghost predicate CanRun(s: Queue, run: seq<Action>)
    decreases |run|
  {
    run == [] ||
    (Wellformed(s) && Enabled(s, run[0]) && Possible(s, EffectOf(s, run[0])) && CanRun(Apply(s, run[0]), run[1..]))
  }

  ghost function Run(s: Queue, run: seq<Action>): Queue
    requires CanRun(s, run)
    decreases |run|
  {
    if run == [] then s else Run(Apply(s, run[0]), run[1..])
  }

  ghost function AllPushed(s: Queue, run: seq<Action>): seq<nat>
    requires CanRun(s, run)
    decreases |run|
  {
    if run == [] then [] else Pushed(s, run[0]) + AllPushed(Apply(s, run[0]), run[1..])
  }

  ghost function AllServed(s: Queue, run: seq<Action>): seq<nat>
    requires CanRun(s, run)
    decreases |run|
  {
    if run == [] then [] else Served(s, run[0]) + AllServed(Apply(s, run[0]), run[1..])
  }

  /** Over every run of any number of pushers, poppers and clusters: the nodes given to pop requests
      are the pushed nodes, in the order of the swaps on Tail, each exactly once. */
  lemma {:induction false} RunIsFifo(s: Queue, run: seq<Action>)
    requires Inv(s) && CanRun(s, run)
    ensures Inv(Run(s, run)) && s.n.front <= |s.n.order| && Run(s, run).n.front <= |Run(s, run).n.order|
    ensures N.Contents(s.n) + AllPushed(s, run) == AllServed(s, run) + N.Contents(Run(s, run).n)
    decreases |run|
  {
    hide Inv, Wellformed, Apply, Pushed, Served, N.Contents, Enabled, Possible, EffectOf;
    FrontBound(s);
    if run == [] {
      assert N.Contents(s.n) + [] == [] + N.Contents(s.n);
    } else {
      RefinesFifo(s, run[0]);
      var s1 := Apply(s, run[0]);
      RunIsFifo(s1, run[1..]);
      Glue(N.Contents(s.n), Pushed(s, run[0]), Served(s, run[0]), N.Contents(s1.n),
           AllPushed(s1, run[1..]), AllServed(s1, run[1..]), N.Contents(Run(s1, run[1..]).n));
    }
  }

  lemma FifoFromEmpty(nodes: nat, clusters: nat, cluster: seq<nat>, run: seq<Action>)
    requires (forall t :: 0 <= t < |cluster| ==> cluster[t] < clusters) && CanRun(Init(nodes, clusters, cluster), run)
    ensures var s := Init(nodes, clusters, cluster);
      Inv(Run(s, run)) && Run(s, run).n.front <= |Run(s, run).n.order| &&
      AllPushed(s, run) == AllServed(s, run) + N.Contents(Run(s, run).n)
  {
    var s := Init(nodes, clusters, cluster);
    InitInv(nodes, clusters, cluster);
    assert N.Contents(s.n) == [];
    hide Inv, CanRun, AllPushed, AllServed;
    RunIsFifo(s, run);
  }

  /** The state after `i` accesses of a run. */
  ghost function StateAt(s: Queue, run: seq<Action>, i: nat): Queue
    requires CanRun(s, run) && i <= |run|
  {
    CanRunPrefix(s, run, i);
    Run(s, run[..i])
  }

  lemma {:induction false} CanRunPrefix(s: Queue, run: seq<Action>, i: nat)
    requires CanRun(s, run) && i <= |run|
    ensures CanRun(s, run[..i])
    ensures i < |run| ==>
      var t := Run(s, run[..i]); Wellformed(t) && Enabled(t, run[i]) && Possible(t, EffectOf(t, run[i]))
    decreases |run|
  {
    hide Wellformed, Enabled, Possible, EffectOf, Apply;
    if i > 0 {
      CanRunPrefix(Apply(s, run[0]), run[1..], i - 1);
      assert run[..i][1..] == run[1..][..i - 1];
    }
  }

  lemma {:induction false} StateAfter(s: Queue, run: seq<Action>, i: nat)
    requires CanRun(s, run) && i < |run|
    ensures var t := StateAt(s, run, i);
      Wellformed(t) && Enabled(t, run[i]) && Possible(t, EffectOf(t, run[i])) && StateAt(s, run, i + 1) == Apply(t, run[i])
    decreases |run|
  {
    hide Wellformed, Enabled, Possible, EffectOf, Apply;
    CanRunPrefix(s, run, i);
    CanRunPrefix(s, run, i + 1);
    if i == 0 {
      var one := run[..1];
      assert run[..0] == [] && one[0] == run[0] && one[1..] == [];
      assert Run(s, run[..0]) == s && Run(Apply(s, run[0]), one[1..]) == Apply(s, run[0]);
      assert Run(s, one) == Run(Apply(s, one[0]), one[1..]);
    } else {
      StateAfter(Apply(s, run[0]), run[1..], i - 1);
      assert run[..i][1..] == run[1..][..i - 1];
      assert run[..i + 1][1..] == run[1..][..i];
    }
  }

  /** Since the state after `j` accesses, in which the queue was empty, one round has been going on. */
  ghost predicate EmptySince(s: Queue, run: seq<Action>, j: nat, k: nat)
    requires CanRun(s, run) && k <= |run|
  {
    && j <= k && N.Wellformed(StateAt(s, run, j).n) && N.Contents(StateAt(s, run, j).n) == []
    && forall i :: j <= i <= k ==> StateAt(s, run, i).step != NoRound
  }

  lemma {:induction false} RefusingSawEmpty(s: Queue, run: seq<Action>, k: nat) returns (j: nat)
    requires Inv(s) && CanRun(s, run) && s.step == NoRound && k <= |run| && InRefusal(StateAt(s, run, k).step)
    ensures EmptySince(s, run, j, k)
    decreases k
  {
    hide Inv, N.Wellformed, R.Wellformed, Apply, Enabled, Possible, EffectOf, Run, CanRun;
    assert k > 0 by { StartsAt(s, run); }
    var t := StateAt(s, run, k - 1);
    StateAfter(s, run, k - 1);
    StateInv(s, run, k - 1);
    FrontBound(t);
    RefusesOnlyWhenEmpty(t, run[k - 1]);
    if InRefusal(t.step) {
      j := RefusingSawEmpty(s, run, k - 1);
    } else {
      j := k - 1;
    }
  }

  lemma StartsAt(s: Queue, run: seq<Action>)
    requires CanRun(s, run)
    ensures StateAt(s, run, 0) == s
  {
    assert run[..0] == [];
  }

  lemma {:induction false} StateInv(s: Queue, run: seq<Action>, i: nat)
    requires Inv(s) && CanRun(s, run) && i <= |run|
    ensures Inv(StateAt(s, run, i))
  {
    hide Inv, CanRun, Run;
    CanRunPrefix(s, run, i);
    RunIsFifo(s, run[..i]);
  }

  /** Over every run: a request is refused only in a round in which the queue was empty at some moment. */
  lemma RefusedWasEmpty(s: Queue, run: seq<Action>, k: nat, c: nat) returns (j: nat)
    requires Inv(s) && CanRun(s, run) && s.step == NoRound && k < |run|
    requires var r, r' := StateAt(s, run, k).r, StateAt(s, run, k + 1).r;
      c < |r.answers| == |r'.answers| && r'.answers[c] == r.answers[c] + [R.Refused]
    ensures EmptySince(s, run, j, k)
  {
    hide Inv, Wellformed, Apply, Enabled, Possible, EffectOf, Run, CanRun;
    var t := StateAt(s, run, k);
    StateAfter(s, run, k);
    StateInv(s, run, k);
    AnswersGrow(t, run[k], c);
    assert t.step.Refuse? by {
      assert StateAt(s, run, k + 1).r.answers[c][|t.r.answers[c]|] == R.Refused;
    }
    j := RefusingSawEmpty(s, run, k);
  }
}
