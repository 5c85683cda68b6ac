/** Who waits for whom in the combining queue, and that nobody waits in vain.

    A pushing thread never waits.  A popping thread waits for its request to be marked, for the head
    lock, or, as the combiner, for a pusher that has swapped its node in and has yet to link it. */
module CuBoProgress {
  import opened Common
  import opened CuBoQueue
  import N = CuBoNodes
  import R = CuBoRequests

  predicate Blocked(s: Queue, a: Action)
    requires Wellformed(s) && Enabled(s, a)
  {
    a.Pop? &&
    match s.r.phases[a.tid]
    case Waiting(q) => s.r.status[q].Wait?
    case WantLock(_) => s.r.round.Some?
    case Combining(_) => (s.step.AwaitFirst? || s.step.AwaitNext?) && !N.FirstLinked(s.n)
    case _ => false
  }

  /** The first node left. */
  function First(s: Queue): nat
    requires Wellformed(s)
  {
    if s.n.front < |s.n.order| then s.n.order[s.n.front] else 0
  }

  /** Where a round goes next, by the contents of the queue and by who waits, instead of by the links
      and ends that the combiner reads. */
  function Follows(s: Queue): Step
    requires Wellformed(s) && s.step != NoRound && (R.Active(s.r) || s.step.Unlock?)
  {
    var linked, empty := N.FirstLinked(s.n), N.Contents(s.n) == [];
    match s.step
    case CheckFirst => if linked then Serve(First(s)) else CheckTail
    case CheckTail => if empty then Refuse(None) else AwaitFirst
    case AwaitFirst => if linked then Serve(First(s)) else AwaitFirst
    case Serve(node) => ReadLink(node)
    case ReadLink(node) => ReadChain(node, if linked then Some(First(s)) else None)
    case ReadChain(node, link) =>
      if !R.NextWaits(s.r) then Close(node) else if link.None? then CheckLast(node) else Handoff(link.value)
    case CheckLast(node) => if empty then Refuse(Some(node)) else ReadLink(node)
    case Handoff(after) => Serve(after)
    case Refuse(last) => ReadAfter(last)
    case ReadAfter(last) => if R.NextWaits(s.r) then RefuseDone(last) else if last.None? then Wake else Close(last.value)
    case RefuseDone(last) => Refuse(last)
    case Close(node) => if linked then Advance(node) else Step.ClearHead(node)
    case ClearHead(node) => CasTail(node)
    case CasTail(node) => if empty then MarkTaken else AwaitNext(node)
    case AwaitNext(node) => if linked then Advance(node) else AwaitNext(node)
    case Advance(_) => MarkAdvanced(First(s))
    case MarkTaken => Wake
    case MarkAdvanced(first) => Step.SetHead(first)
    case SetHead(_) => Wake
    case Wake => Finish
    case Finish => Unlock
    case _ => NoRound
  }

  lemma RoundActive(s: Queue)
    requires Inv(s) && s.step != NoRound
    ensures Wellformed(s) && (R.Active(s.r) || s.step.Unlock?)
  {
    hide N.Inv, R.Inv, N.Wellformed, R.Wellformed;
    Shape(s);
  }

  /** The combiner's tests of links and ends decide exactly what the queue's contents say: a node is
      served as long as one is linked, a refusal starts exactly while the queue is empty, and a round
      answers whoever waits in its chain before it closes. */
  lemma StepExact(s: Queue)
    requires Inv(s) && s.step != NoRound
    ensures Wellformed(s) && (R.Active(s.r) || s.step.Unlock?) && CombineStep(s).step == Follows(s)
  {
    hide Inv, N.Inv, R.Inv, N.Wellformed, R.Wellformed, N.EndsOk, N.FirstLinked;
    Shape(s);
    RoundActive(s);
    FrontBound(s);
    N.Bounds(s.n);
    if s.n.anchor.Some? {
      N.AnchorLink(s.n);
      N.TailAtAnchor(s.n);
    }
  }

  lemma CombinerAdvances(s: Queue)
    requires Inv(s) && s.step != NoRound
    ensures CombineStep(s).step == s.step <==> (s.step.AwaitFirst? || s.step.AwaitNext?) && !N.FirstLinked(s.n)
    ensures CombineStep(s).step == s.step ==> CombineStep(s) == Effect(None, None, s.step)
  {
    hide Inv, N.Inv, R.Inv, N.Wellformed, R.Wellformed, N.EndsOk, N.FirstLinked;
    Shape(s);
    if s.n.anchor.Some? {
      N.AnchorLink(s.n);
    }
  }

  lemma PusherAdvances(n: N.Nodes, op: N.Op)
    requires N.Wellformed(n) && N.CanDo(n, op) && (op.Prepare? || op.SwapTail? || op.StoreLink?)
    ensures N.Do(n, op) != n
  {
    hide N.Wellformed;
  }

  lemma PopperAdvances(r: R.Requests, a: R.Act)
    requires R.Wellformed(r) && R.CanAct(r, a) && R.ByThread(a)
    ensures R.Do(r, a) == r <==> a.See? && r.status[r.phases[a.tid].req].Wait?
  {
    if !a.See? || !r.status[r.phases[a.tid].req].Wait? {
      assert |R.Do(r, a).phases| == |r.phases| && a.tid < |r.phases|;
      assert R.Do(r, a).phases[a.tid] != r.phases[a.tid];
    }
  }

  /** An access leaves everything as it is exactly while its thread waits. */
  lemma StepAdvances(s: Queue, a: Action)
    requires Inv(s) && Enabled(s, a)
    ensures Possible(s, EffectOf(s, a)) && (Apply(s, a) == s <==> Blocked(s, a))
  {
    ActionPossible(s, a);
    hide Inv, N.Inv, R.Inv, N.Wellformed, R.Wellformed, N.CanDo, R.CanAct, N.Do, R.Do, N.EndsOk, N.FirstLinked, CombineStep;
    Shape(s);
    var e := EffectOf(s, a);
    if Combines(s, a) {
      CombinerAdvances(s);
    } else {
      if e.op.Some? && !e.op.value.FreeNode? {
        PusherAdvances(s.n, e.op.value);
      }
      if e.act.Some? {
        PopperAdvances(s.r, e.act.value);
      }
    }
  }

  /** A thread that is not inside a call may push any free node, or pop. */
  lemma MayStart(s: Queue, t: nat, n: nat)
    requires Inv(s) && Wellformed(s) && t < |s.r.phases| && s.r.phases[t].Away? && s.n.push[t].Resting?
    ensures Enabled(s, StartPop(t)) && Possible(s, EffectOf(s, StartPop(t)))
    ensures |Apply(s, StartPop(t)).r.phases| == |s.r.phases| && Apply(s, StartPop(t)).r.phases[t].Requesting?
    ensures 0 < n < |s.n.status| && s.n.status[n].Free? ==>
      && Enabled(s, StartPush(t, n)) && Possible(s, EffectOf(s, StartPush(t, n)))
      && var s' := Apply(s, StartPush(t, n)).n; |s'.push| == |s.n.push| && s'.push[t] == N.Push.Prepared(n) && s'.order == s.n.order
  {
    hide Inv, N.Inv, R.Inv, N.EndsOk;
    Shape(s);
  }

  /** The pusher that the combiner waits for. */
  lemma Unlinked(n: N.Nodes) returns (t: nat)
    requires N.Inv(n) && N.Wellformed(n) && n.front < |n.order| && !N.FirstLinked(n)
    ensures t < |n.push| && n.push[t].Linking? && n.push[t].node == n.order[n.front]
  {
    hide N.Wellformed;
    N.Bounds(n);
    N.At(n, n.front);
    N.NodeAt(n, n.order[n.front]);
    t := n.status[n.order[n.front]].tid;
  }

  /** While no round is going on, the owner of the oldest unanswered request of a chain can go on. */
  lemma FrontOwner(r: R.Requests, t: nat) returns (u: nat)
    requires R.Inv(r) && R.Wellformed(r) && r.round.None? && t < |r.phases| && r.phases[t].Waiting?
    requires r.status[r.phases[t].req].Wait?
    ensures u < |r.phases| && !r.phases[u].Away? && !r.phases[u].Combining?
    ensures r.phases[u].Waiting? ==> !r.status[r.phases[u].req].Wait?
  {
    hide R.Inv, R.Wellformed, R.Recorded;
    R.Shape(r);
    R.Bounds(r);
    R.OwnAt(r, t);
    var c := r.place[r.phases[t].req].cluster;
    R.ThreadAt(r, t);
    R.ChainAt(r, c);
    R.PosAt(r, c, r.front[c]);
    u := r.owner[r.chain[c][r.front[c]]];
    R.ThreadAt(r, u);
  }

  /** Whenever a call is in progress, some thread inside a call can make an access that changes
      something: whoever waits, waits in the end for a thread that does not. */
  lemma NoDeadlock(s: Queue, t: nat) returns (a: Action)
    requires Inv(s) && Wellformed(s) && t < |s.r.phases| && (!s.r.phases[t].Away? || !s.n.push[t].Resting?)
    ensures (a.Push? || a.Pop?) && Enabled(s, a) && !Blocked(s, a)
  {
    hide Inv, N.Inv, R.Inv, N.Wellformed, R.Wellformed, N.EndsOk, N.FirstLinked;
    Shape(s);
    R.Bounds(s.r);
    R.Shape(s.r);
    if !s.n.push[t].Resting? {
      a := Push(t);
    } else if s.r.round.Some? {
      a := Pop(s.r.round.value.tid);
      if Blocked(s, a) {
        var u := Unlinked(s.n);
        a := Push(u);
      }
    } else {
      a := Pop(t);
      if Blocked(s, a) {
        var u := FrontOwner(s.r, t);
        a := Pop(u);
      }
    }
  }
}
