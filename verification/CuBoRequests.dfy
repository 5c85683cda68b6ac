/** The request chains of the combining queue: who asks, who answers, who combines.

    A popper swaps its spare request into the chain of its cluster, takes the one that was last there
    as its own, and links the two.  Whoever finds its request marked Combine answers requests from
    there on down the chain, for all that are linked, and finally marks the first one it did not
    answer.  A thread whose request is answered goes home with the answer and keeps the request it
    waited on as its spare one, so requests change hands at every pop: the one a thread waits on was
    swapped in by the thread before it, and the one it swapped in is waited on by the thread after
    it.  The spare last in the chain belongs to nobody and marks where the next popper will wait.

    One shared access per step.  `chain`, `front`, `answers`, `place`, `at` and `owner` are
    history that no step looks at; `round` is what the holder of the head lock remembers. */
module CuBoRequests {
  import opened Common

  datatype ReqStatus = Wait | Done | Combine

  datatype Answer = Refused | Got(node: nat)

  datatype Phase =
    | Away
    | Requesting          // spare request reset
    | Filling(req: nat)   // own request taken from the chain, about to link it to the next
    | Waiting(req: nat)
    | WantLock(req: nat)  // told to combine
    | Combining(req: nat)
    | Return(req: nat)    // answered

  datatype Where =
    | Spare(tid: nat)
    | Chained(cluster: nat, pos: nat)
    | HeldBack            // got the last node, to be marked done at the end of the round
    | Answered

  /** `held` is LastNodeReq when it is not the request being answered; `woken` says that the next
      combiner has been told, `over` that the last answered request has been marked done. */
  datatype Round = Round(tid: nat, cluster: nat, held: Option<nat>, woken: bool, over: bool)

  datatype Requests = Requests(
    tails: seq<nat>, next: seq<Option<nat>>, status: seq<ReqStatus>, answer: seq<Option<Answer>>,
    pool: seq<nat>, cluster: seq<nat>, phases: seq<Phase>, round: Option<Round>,
    chain: seq<seq<nat>>, front: seq<nat>, answers: seq<seq<Answer>>,
    place: seq<Where>, at: seq<(nat, nat)>, owner: seq<nat>)

  datatype Act =
    | Reset(tid: nat)
    | SwapIn(tid: nat)
    | Fill(tid: nat)
    | See(tid: nat)
    | TakeLock(tid: nat)
    | Give(a: Answer)   // answer the current request
    | Pass              // mark it done and go on with the next
    | Hold              // go on with the next, leaving it for later
    | ReleaseHeld
    | Wake
    | Finish
    | Unlock
    | Recycle(tid: nat)

  /** One chain per cluster, holding one request marked Combine, and a spare request per thread. */
  function Init(clusters: nat, cluster: seq<nat>): Requests {
    var m := clusters + |cluster|;
    Requests(
      seq(clusters, c requires 0 <= c => c), seq(m, _ => None),
      seq(m, i => if i < clusters then Combine else Wait), seq(m, _ => None),
      seq(|cluster|, t requires 0 <= t => clusters + t), cluster, seq(|cluster|, _ => Away), None,
      seq(clusters, c requires 0 <= c => [c]), seq(clusters, _ => 0), seq(clusters, _ => []),
      seq(m, i requires 0 <= i => if i < clusters then Chained(i, 0) else Spare(i - clusters)),
      seq(m, i requires 0 <= i => (i, 0)), seq(m, _ => 0))
  }

  function ReqOf(p: Phase): Option<nat> {
    match p
    case Away => None
    case Requesting => None
    case _ => Some(p.req)
  }

  predicate Wellformed(s: Requests) {
    && |s.next| == |s.status| == |s.answer| == |s.place| == |s.at| == |s.owner|
    && |s.pool| == |s.cluster| == |s.phases|
    && |s.tails| == |s.chain| == |s.front| == |s.answers|
    && (forall c :: 0 <= c < |s.tails| ==> s.tails[c] < |s.next|)
    && (forall c :: 0 <= c < |s.chain| ==> s.front[c] < |s.chain[c]|)
    && (forall c, p :: 0 <= c < |s.chain| && 0 <= p < |s.chain[c]| ==> s.chain[c][p] < |s.next|)
    && (forall r :: 0 <= r < |s.next| && s.next[r].Some? ==> s.next[r].value < |s.next|)
    && (forall t :: 0 <= t < |s.pool| ==> s.pool[t] < |s.next| && s.cluster[t] < |s.tails|)
    && (forall t :: 0 <= t < |s.phases| && ReqOf(s.phases[t]).Some? ==> s.phases[t].req < |s.next|)
    && (s.round.Some? ==> s.round.value.tid < |s.phases| && s.round.value.cluster < |s.chain|)
    && (s.round.Some? && s.round.value.held.Some? ==> s.round.value.held.value < |s.next|)
  }

  /** A round is answering requests. */
  predicate Active(s: Requests) { s.round.Some? && !s.round.value.over }

  predicate ActiveOn(s: Requests, c: nat) { Active(s) && s.round.value.cluster == c }

  /** The request being answered, and the one after it. */
  function Current(s: Requests): nat
    requires Wellformed(s) && Active(s)
  {
    s.chain[s.round.value.cluster][s.front[s.round.value.cluster]]
  }

  predicate HasAnswer(s: Requests)
    requires Wellformed(s) && Active(s)
  {
    |s.answers[s.round.value.cluster]| == s.front[s.round.value.cluster] + 1
  }

  /** The next request is linked onwards, so its owner is waiting for an answer. */
  predicate NextWaits(s: Requests)
    requires Wellformed(s) && Active(s)
  {
    s.next[Current(s)].Some? && s.next[s.next[Current(s)].value].Some?
  }

  predicate CanAct(s: Requests, a: Act)
    requires Wellformed(s)
  {
    match a
    case Reset(t) => t < |s.phases| && s.phases[t].Away?
    case SwapIn(t) => t < |s.phases| && s.phases[t].Requesting?
    case Fill(t) => t < |s.phases| && s.phases[t].Filling?
    case See(t) => t < |s.phases| && s.phases[t].Waiting?
    case TakeLock(t) => t < |s.phases| && s.phases[t].WantLock? && s.round.None?
    case Give(_) => Active(s) && !HasAnswer(s)
    case Pass => Active(s) && HasAnswer(s) && NextWaits(s) && !s.round.value.woken
    case Hold => Active(s) && HasAnswer(s) && NextWaits(s) && !s.round.value.woken && s.round.value.held.None?
    case ReleaseHeld => Active(s) && s.round.value.held.Some?
    case Wake => Active(s) && HasAnswer(s) && s.next[Current(s)].Some? && !s.round.value.woken && s.round.value.held.None?
    case Finish => Active(s) && HasAnswer(s) && s.round.value.woken
    case Unlock => s.round.Some? && s.round.value.over && ReqOf(s.phases[s.round.value.tid]).Some?
    case Recycle(t) => t < |s.phases| && s.phases[t].Return?
  }

  /** The current request is marked done and the walk goes on. */
  function MarkCurrent(s: Requests): Requests
    requires Wellformed(s) && Active(s)
  {
    var r, c := Current(s), s.round.value.cluster;
    s.(status := s.status[r := Done], place := s.place[r := Answered], front := s.front[c := s.front[c] + 1])
  }

  /** The combiner stores a node beside the return code, and a refusal in it: a node does not take back a
      refusal that is still there. */
  function Written(was: Option<Answer>, x: Answer): Option<Answer> {
    if x.Got? && was == Some(Refused) then was else Some(x)
  }

  function Do(s: Requests, a: Act): Requests
    requires Wellformed(s) && CanAct(s, a)
  {
    match a
    case Reset(t) =>
      s.(status := s.status[s.pool[t] := Wait], next := s.next[s.pool[t] := None], phases := s.phases[t := Requesting])
    case SwapIn(t) =>
      var c, mine, spare := s.cluster[t], s.tails[s.cluster[t]], s.pool[t];
      s.(tails := s.tails[c := spare], phases := s.phases[t := Filling(mine)],
         chain := s.chain[c := s.chain[c] + [spare]], place := s.place[spare := Chained(c, |s.chain[c]|)],
         at := s.at[spare := (c, |s.chain[c]|)], owner := s.owner[mine := t])
    case Fill(t) =>
      var r := s.phases[t].req;
      s.(answer := s.answer[r := None], next := s.next[r := Some(s.pool[t])], phases := s.phases[t := Waiting(r)])
    case See(t) =>
      var r := s.phases[t].req;
      if s.status[r].Combine? then s.(phases := s.phases[t := WantLock(r)])
      else if s.status[r].Done? then s.(phases := s.phases[t := Return(r)])
      else s
    case TakeLock(t) =>
      s.(phases := s.phases[t := Combining(s.phases[t].req)], round := Some(Round(t, s.cluster[t], None, false, false)))
    case Give(x) =>
      var c := s.round.value.cluster;
      s.(answer := s.answer[Current(s) := Written(s.answer[Current(s)], x)], answers := s.answers[c := s.answers[c] + [x]])
    case Pass => MarkCurrent(s)
    case Hold =>
      var c := s.round.value.cluster;
      s.(place := s.place[Current(s) := HeldBack], front := s.front[c := s.front[c] + 1],
         round := Some(s.round.value.(held := Some(Current(s)))))
    case ReleaseHeld =>
      var r := s.round.value.held.value;
      s.(status := s.status[r := Done], place := s.place[r := Answered], round := Some(s.round.value.(held := None)))
    case Wake =>
      s.(status := s.status[s.next[Current(s)].value := Combine], round := Some(s.round.value.(woken := true)))
    case Finish => MarkCurrent(s).(round := Some(s.round.value.(over := true)))
    case Unlock =>
      s.(phases := s.phases[s.round.value.tid := Return(s.phases[s.round.value.tid].req)], round := None)
    case Recycle(t) =>
      var r := s.phases[t].req;
      s.(pool := s.pool[t := r], place := s.place[r := Spare(t)], phases := s.phases[t := Away])
  }

  // ---------------------------------------------------------------------------------------------
  // The invariant
  // ---------------------------------------------------------------------------------------------

  /** The combiner's own request. */
  function Mine(s: Requests): Option<nat>
    requires Wellformed(s)
  {
    if s.round.Some? then ReqOf(s.phases[s.round.value.tid]) else None
  }

  /** Exactly one request of a chain is marked Combine: its oldest unanswered one, or, during the last
      steps of a round, the one after it; and none while a round has walked on from its start. */
  function Expected(s: Requests, c: nat, p: nat): ReqStatus
    requires Wellformed(s) && c < |s.chain| && s.front[c] <= p < |s.chain[c]|
  {
    if p == s.front[c] then
      if ActiveOn(s, c) && Mine(s) != Some(s.chain[c][p]) then Wait else Combine
    else if p == s.front[c] + 1 && ActiveOn(s, c) && s.round.value.woken then Combine
    else Wait
  }

  ghost predicate PosOk(s: Requests, c: nat, p: nat)
    requires Wellformed(s) && c < |s.chain| && s.front[c] <= p < |s.chain[c]|
  {
    var r := s.chain[c][p];
    && s.place[r] == Chained(c, p) && s.at[r] == (c, p) && s.status[r] == Expected(s, c, p)
    && (p >= |s.answers[c]| && s.next[r].Some? ==> s.answer[r].None?)
    && (p + 1 < |s.chain[c]| ==>
          s.owner[r] < |s.phases| && s.cluster[s.owner[r]] == c && ReqOf(s.phases[s.owner[r]]) == Some(r))
  }

  ghost predicate ChainOk(s: Requests, c: nat)
    requires Wellformed(s) && c < |s.chain|
  {
    && s.tails[c] == s.chain[c][|s.chain[c]| - 1] && s.next[s.tails[c]].None?
    && (|s.answers[c]| == s.front[c] || (|s.answers[c]| == s.front[c] + 1 && ActiveOn(s, c)))
  }

  /** A request's answer is the one recorded for its position. */
  ghost predicate Recorded(s: Requests, r: nat)
    requires Wellformed(s) && r < |s.next|
  {
    var (c, p) := s.at[r];
    && c < |s.chain| && p < |s.chain[c]| && p < |s.answers[c]| && s.chain[c][p] == r
    && s.answer[r] == Some(s.answers[c][p])
  }

  ghost predicate ReqOk(s: Requests, r: nat)
    requires Wellformed(s) && r < |s.next|
  {
    match s.place[r]
    case Spare(t) => t < |s.phases| && s.pool[t] == r && ReqOf(s.phases[t]).None?
    case Chained(c, p) => c < |s.chain| && s.front[c] <= p < |s.chain[c]| && s.chain[c][p] == r
    case HeldBack => Active(s) && s.round.value.held == Some(r) && Recorded(s, r)
    case Answered =>
      s.status[r].Done? && s.owner[r] < |s.phases| && ReqOf(s.phases[s.owner[r]]) == Some(r) && Recorded(s, r)
  }

  ghost predicate ThreadOk(s: Requests, t: nat)
    requires Wellformed(s) && t < |s.phases|
  {
    match ReqOf(s.phases[t])
    case None =>
      && s.place[s.pool[t]] == Spare(t)
      && (s.phases[t].Requesting? ==> s.next[s.pool[t]].None? && s.status[s.pool[t]].Wait?)
    case Some(r) =>
      && s.owner[r] == t && !s.place[r].Spare?
      && (s.place[r].Chained? ==>
            var c, p := s.place[r].cluster, s.place[r].pos;
            && c == s.cluster[t] && p + 1 < |s.chain[c]|
            && (if s.phases[t].Filling? then s.next[r].None? && s.pool[t] == s.chain[c][p + 1]
                else s.next[r] == Some(s.chain[c][p + 1])))
      && (s.phases[t].Filling? ==> s.place[r].Chained?)
      && (s.phases[t].WantLock? ==> s.place[r].Chained? && s.status[r].Combine?)
      && (s.phases[t].Return? ==> s.place[r].Answered?)
      && (s.phases[t].Combining? ==> s.round.Some? && s.round.value.tid == t)
  }

  ghost predicate RoundOk(s: Requests)
    requires Wellformed(s)
  {
    s.round.Some? ==>
      var rd := s.round.value;
      && s.phases[rd.tid].Combining? && rd.cluster == s.cluster[rd.tid]
      && (if rd.over then rd.held.None? && s.place[s.phases[rd.tid].req].Answered?
          else
            && s.next[Current(s)].Some?
            && (rd.woken ==> HasAnswer(s) && rd.held.None?)
            && (HasAnswer(s) ==> s.answer[Current(s)] == Some(s.answers[rd.cluster][s.front[rd.cluster]]))
            && (s.place[s.phases[rd.tid].req].Chained? ==> s.phases[rd.tid].req == Current(s))
            && (rd.held.Some? ==>
                  var h := rd.held.value;
                  && s.place[h].HeldBack? && s.owner[h] < |s.phases| && ReqOf(s.phases[s.owner[h]]) == Some(h)
                  && s.status[h] == if s.owner[h] == rd.tid then Combine else Wait))
  }

  ghost predicate Inv(s: Requests) {
    && Wellformed(s) && RoundOk(s)
    && (forall c :: 0 <= c < |s.chain| ==> ChainOk(s, c))
    && (forall c, p :: 0 <= c < |s.chain| && s.front[c] <= p < |s.chain[c]| ==> PosOk(s, c, p))
    && (forall r :: 0 <= r < |s.next| ==> ReqOk(s, r))
    && (forall t :: 0 <= t < |s.phases| ==> ThreadOk(s, t))
  }

  lemma InitInv(clusters: nat, cluster: seq<nat>)
    requires forall t :: 0 <= t < |cluster| ==> cluster[t] < clusters
    ensures Inv(Init(clusters, cluster))
  {
  }

  // ---------------------------------------------------------------------------------------------
  // Pointwise facts
  // ---------------------------------------------------------------------------------------------

  lemma Shape(s: Requests)
    requires Inv(s)
    ensures Wellformed(s) && RoundOk(s)
  {
  }

  lemma ChainAt(s: Requests, c: nat)
    requires Inv(s) && c < |s.chain|
    ensures s.front[c] < |s.chain[c]| && ChainOk(s, c)
  {
  }

  lemma PosAt(s: Requests, c: nat, p: nat)
    requires Inv(s) && c < |s.chain| && s.front[c] <= p < |s.chain[c]|
    ensures PosOk(s, c, p) && s.chain[c][p] < |s.next|
  {
  }

  lemma ReqAt(s: Requests, r: nat)
    requires Inv(s) && r < |s.next|
    ensures ReqOk(s, r)
  {
  }

  lemma ThreadAt(s: Requests, t: nat)
    requires Inv(s) && t < |s.phases|
    ensures ThreadOk(s, t) && s.pool[t] < |s.next| && s.cluster[t] < |s.tails|
    ensures ReqOf(s.phases[t]).Some? ==> s.phases[t].req < |s.next|
  {
  }

  /** Sizes and bounds, without the quantifiers. */
  lemma Bounds(s: Requests)
    requires Wellformed(s)
    ensures |s.next| == |s.status| == |s.answer| == |s.place| == |s.at| == |s.owner|
    ensures |s.pool| == |s.cluster| == |s.phases| && |s.tails| == |s.chain| == |s.front| == |s.answers|
    ensures s.round.Some? ==> s.round.value.tid < |s.phases| && s.round.value.cluster < |s.chain| &&
                              s.front[s.round.value.cluster] < |s.chain[s.round.value.cluster]|
    ensures s.round.Some? && s.round.value.held.Some? ==> s.round.value.held.value < |s.next|
  {
  }

  /** The request being answered belongs to a thread that has linked it to the next one. */
  lemma CurrentFacts(s: Requests)
    requires Inv(s) && Active(s)
    ensures Wellformed(s) && RoundOk(s)
    ensures var c, r := s.round.value.cluster, Current(s);
      && r < |s.next| && s.front[c] + 1 < |s.chain[c]| && s.chain[c][s.front[c]] == r
      && s.next[r] == Some(s.chain[c][s.front[c] + 1]) && s.place[r] == Chained(c, s.front[c])
      && s.at[r] == (c, s.front[c])
      && s.owner[r] < |s.phases| && ReqOf(s.phases[s.owner[r]]) == Some(r) && !s.phases[s.owner[r]].Filling?
      && s.chain[c][s.front[c] + 1] < |s.next| && s.chain[c][s.front[c] + 1] != r
      && (!HasAnswer(s) ==> s.answer[r].None?)
  {
    hide Inv, Wellformed;
    Shape(s);
    Bounds(s);
    var c, r := s.round.value.cluster, Current(s);
    ChainAt(s, c);
    PosAt(s, c, s.front[c]);
    if s.front[c] + 1 < |s.chain[c]| {
      ThreadAt(s, s.owner[r]);
      PosAt(s, c, s.front[c] + 1);
    }
  }

  /** The next request, when it is linked onwards, belongs to a thread that is waiting. */
  lemma NextFacts(s: Requests)
    requires Inv(s) && Active(s) && Wellformed(s) && NextWaits(s)
    ensures var c := s.round.value.cluster; s.front[c] + 2 < |s.chain[c]|
    ensures var c := s.round.value.cluster; var n := s.chain[c][s.front[c] + 1];
      n < |s.next| && s.next[Current(s)] == Some(n) && s.next[n].Some? && PosOk(s, c, s.front[c] + 1)
  {
    hide Inv, Wellformed;
    Shape(s);
    Bounds(s);
    CurrentFacts(s);
    var c := s.round.value.cluster;
    ChainAt(s, c);
    PosAt(s, c, s.front[c] + 1);
  }

  // ---------------------------------------------------------------------------------------------
  // Every act keeps the invariant
  // ---------------------------------------------------------------------------------------------

  lemma WellformedDo(s: Requests, a: Act)
    requires Inv(s) && CanAct(s, a)
    ensures Wellformed(Do(s, a))
  {
    Shape(s);
    hide Inv, RoundOk, Do;
    if Moves(a) {
      WellformedMoves(s, a);
    } else {
      WellformedStays(s, a);
    }
  }

  lemma WellformedStays(s: Requests, a: Act)
    requires Inv(s) && CanAct(s, a) && !Moves(a)
    ensures Wellformed(Do(s, a))
  {
    Shape(s);
    hide Inv, RoundOk, Do;
    if ByThread(a) {
      WellformedThread(s, a);
    } else {
      WellformedRound(s, a);
    }
  }

  lemma WellformedThread(s: Requests, a: Act)
    requires Inv(s) && CanAct(s, a) && ByThread(a)
    ensures Wellformed(Do(s, a))
  {
    Shape(s);
    hide Inv, RoundOk, Do, ByThread;
    if a.SwapIn? {
      WellformedSwapIn(s, a.tid);
    } else {
      WellformedOther(s, a);
    }
  }

  lemma WellformedSwapIn(s: Requests, t: nat)
    requires Wellformed(s) && CanAct(s, SwapIn(t))
    ensures Wellformed(Do(s, SwapIn(t)))
  {
  }

  lemma WellformedOther(s: Requests, a: Act)
    requires Wellformed(s) && CanAct(s, a) && ByThread(a) && !a.SwapIn?
    ensures Wellformed(Do(s, a))
  {
  }

  lemma WellformedRound(s: Requests, a: Act)
    requires Inv(s) && CanAct(s, a) && !Moves(a) && !ByThread(a)
    ensures Wellformed(Do(s, a))
  {
    if Active(s) {
      CurrentFacts(s);
    }
    Shape(s);
    hide Inv, RoundOk, NextWaits, HasAnswer;
  }

  lemma WellformedMoves(s: Requests, a: Act)
    requires Inv(s) && CanAct(s, a) && Moves(a)
    ensures Wellformed(Do(s, a))
  {
    CurrentFacts(s);
    if a.Pass? || a.Hold? {
      NextFacts(s);
    }
    Shape(s);
    hide Inv, RoundOk, NextWaits, HasAnswer;
  }

  lemma TailAt(s: Requests, c: nat)
    requires Inv(s) && c < |s.chain|
    ensures s.front[c] < |s.chain[c]| && s.tails[c] == s.chain[c][|s.chain[c]| - 1] < |s.next| && s.next[s.tails[c]].None?
    ensures s.place[s.tails[c]] == Chained(c, |s.chain[c]| - 1) && s.at[s.tails[c]] == (c, |s.chain[c]| - 1)
    ensures |s.answers[c]| == s.front[c] || (|s.answers[c]| == s.front[c] + 1 && ActiveOn(s, c))
  {
    hide Inv, Wellformed;
    Shape(s);
    Bounds(s);
    ChainAt(s, c);
    PosAt(s, c, |s.chain[c]| - 1);
  }

  /** What each thread's own acts may rely on. */
  lemma SpareAt(s: Requests, t: nat)
    requires Inv(s) && t < |s.phases| && ReqOf(s.phases[t]).None?
    ensures s.pool[t] < |s.next| && s.cluster[t] < |s.tails| && s.place[s.pool[t]] == Spare(t)
    ensures s.phases[t].Requesting? ==> s.next[s.pool[t]].None? && s.status[s.pool[t]].Wait?
  {
    hide Inv, Wellformed;
    ThreadAt(s, t);
  }

  lemma FillerAt(s: Requests, t: nat)
    requires Inv(s) && t < |s.phases| && s.phases[t].Filling?
    ensures var r, c := s.phases[t].req, s.cluster[t];
      && r < |s.next| && s.pool[t] < |s.next| && c < |s.chain| && s.place[r].Chained? && s.place[r].cluster == c
      && s.owner[r] == t && s.next[r].None?
      && var p := s.place[r].pos;
        s.front[c] <= p && p + 1 < |s.chain[c]| && s.chain[c][p] == r && s.chain[c][p + 1] == s.pool[t]
  {
    hide Inv, Wellformed;
    ThreadAt(s, t);
    ReqAt(s, s.phases[t].req);
  }

  /** The facts about the thread that acts. */
  lemma OwnFacts(s: Requests, a: Act)
    requires Inv(s) && Wellformed(s) && CanAct(s, a)
    ensures a.Reset? || a.SwapIn? ==>
      s.pool[a.tid] < |s.next| && s.cluster[a.tid] < |s.tails| && s.place[s.pool[a.tid]] == Spare(a.tid) &&
      (a.SwapIn? ==> s.next[s.pool[a.tid]].None? && s.status[s.pool[a.tid]].Wait?)
    ensures a.Fill? ==>
      var r, c := s.phases[a.tid].req, s.cluster[a.tid];
      && r < |s.next| && s.pool[a.tid] < |s.next| && c < |s.chain| && s.place[r].Chained? && s.place[r].cluster == c
      && s.owner[r] == a.tid && s.next[r].None?
      && var p := s.place[r].pos;
        s.front[c] <= p && p + 1 < |s.chain[c]| && s.chain[c][p] == r && s.chain[c][p + 1] == s.pool[a.tid]
    ensures ByThread(a) && s.round.Some? ==> s.round.value.tid != a.tid
  {
    hide Inv, Wellformed;
    Shape(s);
    if a.Reset? || a.SwapIn? {
      SpareAt(s, a.tid);
    }
    if a.Fill? {
      FillerAt(s, a.tid);
    }
  }

  /** Acts that move the round on to the next request. */
  predicate Moves(a: Act) { a.Pass? || a.Hold? || a.Finish? }

  predicate ByThread(a: Act) { a.Reset? || a.SwapIn? || a.Fill? || a.See? || a.TakeLock? || a.Recycle? }

  lemma ChainOfThread(s: Requests, s': Requests, a: Act, c: nat)
    requires Inv(s) && CanAct(s, a) && ByThread(a) && s' == Do(s, a) && Wellformed(s') && c < |s.chain|
    ensures ChainOk(s', c)
  {
    hide Inv, Wellformed, ChainOk, RoundOk;
    Shape(s);
    if a.SwapIn? {
      ChainOfSwapIn(s, s', a.tid, c);
    } else {
      ChainOfOther(s, s', a, c);
    }
  }

  lemma ChainOfSwapIn(s: Requests, s': Requests, t: nat, c: nat)
    requires Inv(s) && CanAct(s, SwapIn(t)) && s' == Do(s, SwapIn(t)) && Wellformed(s') && c < |s.chain|
    ensures ChainOk(s', c)
  {
    hide Inv, Wellformed, ChainOk, RoundOk;
    Shape(s);
    Bounds(s);
    TailAt(s, c);
    OwnFacts(s, SwapIn(t));
    ChainFrom(s', c);
  }

  lemma ChainOfOther(s: Requests, s': Requests, a: Act, c: nat)
    requires Inv(s) && CanAct(s, a) && ByThread(a) && !a.SwapIn? && s' == Do(s, a) && Wellformed(s') && c < |s.chain|
    ensures ChainOk(s', c)
  {
    hide Inv, Wellformed, ChainOk, RoundOk;
    Shape(s);
    Bounds(s);
    TailAt(s, c);
    OwnFacts(s, a);
    ChainFrom(s', c);
  }

  lemma ChainOfRound(s: Requests, s': Requests, a: Act, c: nat)
    requires Inv(s) && CanAct(s, a) && !ByThread(a) && s' == Do(s, a) && Wellformed(s') && c < |s.chain|
    ensures ChainOk(s', c)
  {
    hide Inv, Wellformed, ChainOk, RoundOk, NextWaits;
    Shape(s);
    Bounds(s);
    TailAt(s, c);
    if Active(s) {
      CurrentFacts(s);
    }
    ChainFrom(s', c);
  }

  lemma ChainFrom(s: Requests, c: nat)
    requires Wellformed(s) && c < |s.chain|
    requires s.tails[c] == s.chain[c][|s.chain[c]| - 1] && s.next[s.tails[c]].None?
    requires |s.answers[c]| == s.front[c] || (|s.answers[c]| == s.front[c] + 1 && ActiveOn(s, c))
    ensures ChainOk(s, c)
  {
  }

  /** Whoever is about to take the lock owns the oldest unanswered request of its cluster. */
  lemma DesignatedAt(s: Requests, t: nat)
    requires Inv(s) && t < |s.phases| && s.phases[t].WantLock? && s.round.None?
    ensures var r, c := s.phases[t].req, s.cluster[t];
      c < |s.chain| && s.front[c] < |s.chain[c]| && r < |s.next| && r == s.chain[c][s.front[c]] &&
      s.place[r] == Chained(c, s.front[c]) && s.owner[r] == t
  {
    hide Inv, Wellformed;
    Shape(s);
    Bounds(s);
    ThreadAt(s, t);
    var r := s.phases[t].req;
    ReqAt(s, r);
    PosAt(s, s.place[r].cluster, s.place[r].pos);
  }

  lemma AnsweredAt(s: Requests, t: nat)
    requires Inv(s) && t < |s.phases| && s.phases[t].Return?
    ensures var r := s.phases[t].req; r < |s.next| && s.place[r].Answered? && s.owner[r] == t && ReqOk(s, r)
    ensures s.round.Some? ==> s.round.value.tid != t
  {
    hide Inv, Wellformed;
    Shape(s);
    ThreadAt(s, t);
    ReqAt(s, s.phases[t].req);
  }

  lemma PosOfSwapIn(s: Requests, s': Requests, t: nat, c: nat, p: nat)
    requires Inv(s) && CanAct(s, SwapIn(t)) && s' == Do(s, SwapIn(t)) && Wellformed(s')
    requires c < |s.chain| && s'.front[c] <= p < |s'.chain[c]|
    ensures PosOk(s', c, p)
  {
    hide Inv, Wellformed, PosOk, Expected, RoundOk;
    Shape(s);
    Bounds(s);
    if p < |s.chain[c]| {
      OldPosOfSwapIn(s, s', t, c, p);
    } else {
      NewPosOfSwapIn(s, s', t, p);
    }
  }

  lemma OldPosOfSwapIn(s: Requests, s': Requests, t: nat, c: nat, p: nat)
    requires Inv(s) && CanAct(s, SwapIn(t)) && s' == Do(s, SwapIn(t)) && Wellformed(s')
    requires c < |s.chain| && s'.front[c] <= p < |s.chain[c]| && p < |s'.chain[c]|
    ensures PosOk(s', c, p)
  {
    hide Inv, Wellformed, RoundOk;
    Shape(s);
    Bounds(s);
    OwnFacts(s, SwapIn(t));
    TailAt(s, s.cluster[t]);
    PosAt(s, c, p);
  }

  lemma NewPosOfSwapIn(s: Requests, s': Requests, t: nat, p: nat)
    requires Inv(s) && CanAct(s, SwapIn(t)) && s' == Do(s, SwapIn(t)) && Wellformed(s')
    requires s.cluster[t] < |s.chain| && p == |s.chain[s.cluster[t]]| && s'.front[s.cluster[t]] <= p < |s'.chain[s.cluster[t]]|
    ensures PosOk(s', s.cluster[t], p)
  {
    hide Inv, Wellformed, RoundOk;
    Shape(s);
    Bounds(s);
    OwnFacts(s, SwapIn(t));
    TailAt(s, s.cluster[t]);
    if ActiveOn(s, s.cluster[t]) {
      CurrentFacts(s);
    }
  }

  lemma PosOfThread(s: Requests, s': Requests, a: Act, c: nat, p: nat)
    requires Inv(s) && CanAct(s, a) && ByThread(a) && !a.SwapIn? && s' == Do(s, a) && Wellformed(s')
    requires c < |s.chain| && s'.front[c] <= p < |s'.chain[c]|
    ensures PosOk(s', c, p)
  {
    hide Inv, Wellformed, RoundOk, PosOk;
    Shape(s);
    if a.TakeLock? {
      PosOfTakeLock(s, s', a.tid, c, p);
    } else if a.Recycle? {
      PosOfRecycle(s, s', a.tid, c, p);
    } else {
      PosOfOther(s, s', a, c, p);
    }
  }

  lemma PosOfTakeLock(s: Requests, s': Requests, t: nat, c: nat, p: nat)
    requires Inv(s) && CanAct(s, TakeLock(t)) && s' == Do(s, TakeLock(t)) && Wellformed(s')
    requires c < |s.chain| && s'.front[c] <= p < |s'.chain[c]|
    ensures PosOk(s', c, p)
  {
    hide Inv, Wellformed, RoundOk;
    Shape(s);
    Bounds(s);
    PosAt(s, c, p);
    DesignatedAt(s, t);
  }

  lemma PosOfRecycle(s: Requests, s': Requests, t: nat, c: nat, p: nat)
    requires Inv(s) && CanAct(s, Recycle(t)) && s' == Do(s, Recycle(t)) && Wellformed(s')
    requires c < |s.chain| && s'.front[c] <= p < |s'.chain[c]|
    ensures PosOk(s', c, p)
  {
    hide Inv, Wellformed, RoundOk;
    Shape(s);
    Bounds(s);
    PosAt(s, c, p);
    AnsweredAt(s, t);
  }

  lemma PosOfFill(s: Requests, s': Requests, t: nat, c: nat, p: nat)
    requires Inv(s) && CanAct(s, Fill(t)) && s' == Do(s, Fill(t)) && Wellformed(s')
    requires c < |s.chain| && s'.front[c] <= p < |s'.chain[c]|
    ensures PosOk(s', c, p)
  {
    hide Inv, Wellformed, RoundOk;
    Shape(s);
    Bounds(s);
    OwnFacts(s, Fill(t));
    PosAt(s, c, p);
  }

  lemma PosOfReset(s: Requests, s': Requests, t: nat, c: nat, p: nat)
    requires Inv(s) && CanAct(s, Reset(t)) && s' == Do(s, Reset(t)) && Wellformed(s')
    requires c < |s.chain| && s'.front[c] <= p < |s'.chain[c]|
    ensures PosOk(s', c, p)
  {
    hide Inv, Wellformed, RoundOk;
    Shape(s);
    Bounds(s);
    OwnFacts(s, Reset(t));
    PosAt(s, c, p);
  }

  lemma PosOfSee(s: Requests, s': Requests, t: nat, c: nat, p: nat)
    requires Inv(s) && CanAct(s, See(t)) && s' == Do(s, See(t)) && Wellformed(s')
    requires c < |s.chain| && s'.front[c] <= p < |s'.chain[c]|
    ensures PosOk(s', c, p)
  {
    hide Inv, Wellformed, RoundOk;
    Shape(s);
    Bounds(s);
    OwnFacts(s, See(t));
    PosAt(s, c, p);
  }

  lemma PosOfOther(s: Requests, s': Requests, a: Act, c: nat, p: nat)
    requires (a.Reset? || a.Fill? || a.See?) && Inv(s) && CanAct(s, a) && s' == Do(s, a) && Wellformed(s')
    requires c < |s.chain| && s'.front[c] <= p < |s'.chain[c]|
    ensures PosOk(s', c, p)
  {
    hide Inv, Wellformed, RoundOk, Do, CanAct, PosOk;
    if a.Fill? {
      PosOfFill(s, s', a.tid, c, p);
    } else if a.Reset? {
      PosOfReset(s, s', a.tid, c, p);
    } else {
      PosOfSee(s, s', a.tid, c, p);
    }
  }

  lemma PosOfGive(s: Requests, s': Requests, x: Answer, c: nat, p: nat)
    requires Inv(s) && CanAct(s, Give(x)) && s' == Do(s, Give(x)) && Wellformed(s')
    requires c < |s.chain| && s'.front[c] <= p < |s'.chain[c]|
    ensures PosOk(s', c, p)
  {
    hide Inv, Wellformed, NextWaits;
    Shape(s);
    Bounds(s);
    ChainAt(s, c);
    PosAt(s, c, p);
    CurrentFacts(s);
  }

  lemma PosOfAdvance(s: Requests, s': Requests, a: Act, c: nat, p: nat)
    requires Inv(s) && CanAct(s, a) && (a.Pass? || a.Hold? || a.Finish?) && s' == Do(s, a) && Wellformed(s')
    requires c < |s.chain| && s'.front[c] <= p < |s'.chain[c]|
    ensures PosOk(s', c, p)
  {
    hide Inv, Wellformed, NextWaits, RoundOk;
    Shape(s);
    Bounds(s);
    PosAt(s, c, p);
    CurrentFacts(s);
    CombinerAt(s);
  }

  /** The combiner's own request: done, or the one being answered. */
  lemma CombinerAt(s: Requests)
    requires Inv(s) && Active(s)
    ensures Wellformed(s) && s.round.value.tid < |s.phases| && s.phases[s.round.value.tid].Combining?
    ensures s.phases[s.round.value.tid].req < |s.place|
    ensures s.place[s.phases[s.round.value.tid].req].Chained? ==> s.phases[s.round.value.tid].req == Current(s)
  {
    hide Inv, Wellformed;
    Shape(s);
    Bounds(s);
    ThreadAt(s, s.round.value.tid);
  }

  lemma PosOfRest(s: Requests, s': Requests, a: Act, c: nat, p: nat)
    requires Inv(s) && CanAct(s, a) && (a.ReleaseHeld? || a.Wake? || a.Unlock?) && s' == Do(s, a) && Wellformed(s')
    requires c < |s.chain| && s'.front[c] <= p < |s'.chain[c]|
    ensures PosOk(s', c, p)
  {
    hide Inv, Wellformed, NextWaits;
    Shape(s);
    Bounds(s);
    PosAt(s, c, p);
    if Active(s) {
      CurrentFacts(s);
      PosAt(s, s.round.value.cluster, s.front[s.round.value.cluster] + 1);
    }
  }

  lemma PosOfRound(s: Requests, s': Requests, a: Act, c: nat, p: nat)
    requires Inv(s) && CanAct(s, a) && !ByThread(a) && s' == Do(s, a) && Wellformed(s')
    requires c < |s.chain| && s'.front[c] <= p < |s'.chain[c]|
    ensures PosOk(s', c, p)
  {
    hide Inv, Wellformed, Do, PosOk, CanAct;
    match a
    case Give(x) => PosOfGive(s, s', x, c, p);
    case Pass => PosOfAdvance(s, s', a, c, p);
    case Hold => PosOfAdvance(s, s', a, c, p);
    case Finish => PosOfAdvance(s, s', a, c, p);
    case _ => PosOfRest(s, s', a, c, p);
  }

  /** Records survive: answers are only appended, chains only extended. */
  lemma RecordKept(s: Requests, s': Requests, r: nat)
    requires Wellformed(s) && Wellformed(s') && r < |s.next| == |s'.next| && Recorded(s, r)
    requires s'.at[r] == s.at[r] && s'.answer[r] == s.answer[r] && |s'.chain| == |s.chain|
    requires forall c :: 0 <= c < |s.chain| ==> s.chain[c] <= s'.chain[c] && s.answers[c] <= s'.answers[c]
    ensures Recorded(s', r)
  {
    hide Wellformed;
    Bounds(s);
    Bounds(s');
    var (c, p) := s.at[r];
    assert s.chain[c] <= s'.chain[c] && s.answers[c] <= s'.answers[c];
  }

  lemma ReqOfSwapIn(s: Requests, s': Requests, t: nat, r: nat)
    requires Inv(s) && CanAct(s, SwapIn(t)) && s' == Do(s, SwapIn(t)) && Wellformed(s') && r < |s.next|
    ensures ReqOk(s', r)
  {
    hide Inv, Wellformed, RoundOk, Recorded;
    Shape(s);
    Bounds(s);
    OwnFacts(s, SwapIn(t));
    ReqAt(s, r);
    TailAt(s, s.cluster[t]);
    if s.place[r].Answered? || s.place[r].HeldBack? {
      RecordKept(s, s', r);
    }
  }

  lemma ReqOfThread(s: Requests, s': Requests, a: Act, r: nat)
    requires Inv(s) && CanAct(s, a) && ByThread(a) && !a.SwapIn? && s' == Do(s, a) && Wellformed(s') && r < |s.next|
    ensures ReqOk(s', r)
  {
    hide Inv, Wellformed, ReqOk;
    Shape(s);
    if a.Fill? {
      ReqOfFill(s, s', a.tid, r);
    } else if a.Recycle? {
      ReqOfRecycle(s, s', a.tid, r);
    } else {
      ReqOfOther(s, s', a, r);
    }
  }

  lemma ReqOfFill(s: Requests, s': Requests, t: nat, r: nat)
    requires Inv(s) && CanAct(s, Fill(t)) && s' == Do(s, Fill(t)) && Wellformed(s') && r < |s.next|
    ensures ReqOk(s', r)
  {
    hide Inv, Wellformed, RoundOk, Recorded;
    Shape(s);
    Bounds(s);
    OwnFacts(s, Fill(t));
    ReqAt(s, r);
    if s.place[r].Answered? || s.place[r].HeldBack? {
      RecordKept(s, s', r);
    }
  }

  lemma ReqOfRecycle(s: Requests, s': Requests, t: nat, r: nat)
    requires Inv(s) && CanAct(s, Recycle(t)) && s' == Do(s, Recycle(t)) && Wellformed(s') && r < |s.next|
    ensures ReqOk(s', r)
  {
    hide Inv, Wellformed, RoundOk, Recorded;
    Shape(s);
    Bounds(s);
    ReqAt(s, r);
    AnsweredAt(s, t);
    if s.place[r].Answered? || s.place[r].HeldBack? {
      RecordKept(s, s', r);
    }
  }

  lemma ReqOfOther(s: Requests, s': Requests, a: Act, r: nat)
    requires (a.Reset? || a.See? || a.TakeLock?) && Inv(s) && CanAct(s, a) && s' == Do(s, a) && Wellformed(s') && r < |s.next|
    ensures ReqOk(s', r)
  {
    hide Inv, Wellformed, RoundOk, Recorded;
    Shape(s);
    Bounds(s);
    OwnFacts(s, a);
    ReqAt(s, r);
    if s.place[r].Answered? || s.place[r].HeldBack? {
      RecordKept(s, s', r);
    }
  }

  lemma ReqOfMark(s: Requests, s': Requests, a: Act, r: nat)
    requires (a.Pass? || a.Finish?) && Inv(s) && CanAct(s, a) && s' == Do(s, a) && Wellformed(s') && r < |s.next|
    ensures ReqOk(s', r)
  {
    hide Inv, Wellformed, NextWaits, Recorded;
    Shape(s);
    Bounds(s);
    ReqAt(s, r);
    CurrentFacts(s);
    ChainAt(s, s.round.value.cluster);
    PosAt(s, s.round.value.cluster, s.front[s.round.value.cluster] + 1);
    if s.place[r].Answered? || s.place[r].HeldBack? {
      RecordKept(s, s', r);
    }
    if r == Current(s) {
      JustRecorded(s, s');
    }
  }

  lemma ReqOfHold(s: Requests, s': Requests, r: nat)
    requires Inv(s) && CanAct(s, Hold) && s' == Do(s, Hold) && Wellformed(s') && r < |s.next|
    ensures ReqOk(s', r)
  {
    hide Inv, Wellformed, NextWaits, Recorded;
    Shape(s);
    Bounds(s);
    ReqAt(s, r);
    CurrentFacts(s);
    ChainAt(s, s.round.value.cluster);
    PosAt(s, s.round.value.cluster, s.front[s.round.value.cluster] + 1);
    if s.place[r].Answered? || s.place[r].HeldBack? {
      RecordKept(s, s', r);
    }
    if r == Current(s) {
      JustRecorded(s, s');
    }
  }

  /** The answered request that the round moves on from carries its record. */
  lemma JustRecorded(s: Requests, s': Requests)
    requires Inv(s) && Active(s) && Wellformed(s) && HasAnswer(s) && Wellformed(s')
    requires s'.at == s.at && s'.answer == s.answer && s'.chain == s.chain && s'.answers == s.answers && |s'.next| == |s.next|
    ensures Current(s) < |s'.next| && Recorded(s', Current(s))
  {
    hide Inv, Wellformed, NextWaits;
    Shape(s);
    Bounds(s);
    CurrentFacts(s);
    ChainAt(s, s.round.value.cluster);
  }

  lemma ReqOfStill(s: Requests, s': Requests, a: Act, r: nat)
    requires !Moves(a) && Inv(s) && CanAct(s, a) && !ByThread(a) && s' == Do(s, a) && Wellformed(s') && r < |s.next|
    ensures ReqOk(s', r)
  {
    hide Inv, Wellformed, NextWaits, ReqOk;
    Shape(s);
    if a.Give? || a.Wake? {
      ReqOfAnswer(s, s', a, r);
    } else {
      ReqOfRelease(s, s', a, r);
    }
  }

  lemma ReqOfAnswer(s: Requests, s': Requests, a: Act, r: nat)
    requires (a.Give? || a.Wake?) && Inv(s) && CanAct(s, a) && s' == Do(s, a) && Wellformed(s') && r < |s.next|
    ensures ReqOk(s', r)
  {
    hide Inv, Wellformed, NextWaits, Recorded;
    Shape(s);
    Bounds(s);
    ReqAt(s, r);
    CurrentFacts(s);
    ChainAt(s, s.round.value.cluster);
    PosAt(s, s.round.value.cluster, s.front[s.round.value.cluster] + 1);
    if s.place[r].Answered? || s.place[r].HeldBack? {
      RecordKept(s, s', r);
    }
  }

  lemma ReqOfRelease(s: Requests, s': Requests, a: Act, r: nat)
    requires (a.ReleaseHeld? || a.Unlock?) && Inv(s) && CanAct(s, a) && s' == Do(s, a) && Wellformed(s') && r < |s.next|
    ensures ReqOk(s', r)
  {
    hide Inv, Wellformed, NextWaits, Recorded;
    Shape(s);
    Bounds(s);
    ReqAt(s, r);
    if s.place[r].Answered? || s.place[r].HeldBack? {
      RecordKept(s, s', r);
    }
  }

  /** The request a thread waits for, with what its place says. */
  lemma OwnAt(s: Requests, t: nat)
    requires Inv(s) && t < |s.phases| && ReqOf(s.phases[t]).Some?
    ensures var r := s.phases[t].req;
      r < |s.next| && s.owner[r] == t && !s.place[r].Spare? && ReqOk(s, r) && ThreadOk(s, t)
    ensures var r := s.phases[t].req;
      s.place[r].Chained? ==> s.status[r] == Expected(s, s.place[r].cluster, s.place[r].pos)
  {
    hide Inv, Wellformed, Recorded, Expected;
    Shape(s);
    ThreadAt(s, t);
    var r := s.phases[t].req;
    ReqAt(s, r);
    if s.place[r].Chained? {
      PosAt(s, s.place[r].cluster, s.place[r].pos);
    }
  }

  /** A waiting thread is told to combine only while its request is in the chain, and done only once
      it has an answer. */
  lemma SeesRightly(s: Requests, t: nat)
    requires Inv(s) && t < |s.phases| && s.phases[t].Waiting?
    ensures var r := s.phases[t].req;
      && r < |s.next| && (s.status[r].Combine? ==> s.place[r].Chained?)
      && (s.status[r].Done? ==> s.place[r].Answered?)
  {
    hide Inv, Wellformed, Recorded;
    Shape(s);
    OwnAt(s, t);
  }

  lemma ThreadOfSwapIn(s: Requests, s': Requests, t: nat, u: nat)
    requires Inv(s) && CanAct(s, SwapIn(t)) && s' == Do(s, SwapIn(t)) && Wellformed(s') && u < |s.phases|
    ensures ThreadOk(s', u)
  {
    hide Inv, Wellformed, RoundOk, Recorded;
    Shape(s);
    Bounds(s);
    OwnFacts(s, SwapIn(t));
    ThreadAt(s, u);
    TailAt(s, s.cluster[t]);
    if ReqOf(s.phases[u]).Some? {
      OwnAt(s, u);
    }
  }

  lemma ThreadOfThread(s: Requests, s': Requests, a: Act, u: nat)
    requires (a.See? || a.Recycle?) && Inv(s) && CanAct(s, a) && s' == Do(s, a) && Wellformed(s') && u < |s.phases|
    ensures ThreadOk(s', u)
  {
    hide Inv, Wellformed, ThreadOk;
    if a.See? {
      ThreadOfSee(s, s', a.tid, u);
    } else {
      ThreadOfRecycle(s, s', a.tid, u);
    }
  }

  lemma ThreadOfSee(s: Requests, s': Requests, t: nat, u: nat)
    requires Inv(s) && CanAct(s, See(t)) && s' == Do(s, See(t)) && Wellformed(s') && u < |s.phases|
    ensures ThreadOk(s', u)
  {
    hide Inv, Wellformed, RoundOk, Recorded;
    Shape(s);
    Bounds(s);
    ThreadAt(s, u);
    SeesRightly(s, t);
  }

  lemma ThreadOfRecycle(s: Requests, s': Requests, t: nat, u: nat)
    requires Inv(s) && CanAct(s, Recycle(t)) && s' == Do(s, Recycle(t)) && Wellformed(s') && u < |s.phases|
    ensures ThreadOk(s', u)
  {
    hide Inv, Wellformed, RoundOk, Recorded;
    Shape(s);
    Bounds(s);
    ThreadAt(s, u);
    AnsweredAt(s, t);
  }

  lemma ThreadOfOther(s: Requests, s': Requests, a: Act, u: nat)
    requires !a.See? && !a.Recycle? && Inv(s) && CanAct(s, a) && ByThread(a) && !a.SwapIn? && s' == Do(s, a) &&
      Wellformed(s') && u < |s.phases|
    ensures ThreadOk(s', u)
  {
    hide Inv, Wellformed, RoundOk, Recorded;
    Shape(s);
    Bounds(s);
    OwnFacts(s, a);
    ThreadAt(s, u);
  }

  lemma ThreadOfRound(s: Requests, s': Requests, a: Act, u: nat)
    requires Moves(a) && Inv(s) && CanAct(s, a) && !ByThread(a) && s' == Do(s, a) && Wellformed(s') && u < |s.phases|
    ensures ThreadOk(s', u)
  {
    hide Inv, Wellformed, NextWaits, ThreadOk;
    if a.Hold? {
      ThreadOfHold(s, s', u);
    } else {
      ThreadOfMark(s, s', a, u);
    }
  }

  lemma ThreadOfMark(s: Requests, s': Requests, a: Act, u: nat)
    requires (a.Pass? || a.Finish?) && Inv(s) && CanAct(s, a) && s' == Do(s, a) && Wellformed(s') && u < |s.phases|
    ensures ThreadOk(s', u)
  {
    hide Inv, Wellformed, NextWaits, Recorded, HasAnswer;
    Shape(s);
    Bounds(s);
    ThreadAt(s, u);
    CurrentFacts(s);
    ThreadAt(s, s.round.value.tid);
    PosAt(s, s.round.value.cluster, s.front[s.round.value.cluster]);
  }

  lemma ThreadOfHold(s: Requests, s': Requests, u: nat)
    requires Inv(s) && CanAct(s, Hold) && s' == Do(s, Hold) && Wellformed(s') && u < |s.phases|
    ensures ThreadOk(s', u)
  {
    hide Inv, Wellformed, NextWaits, Recorded, HasAnswer;
    Shape(s);
    Bounds(s);
    ThreadAt(s, u);
    CurrentFacts(s);
    ThreadAt(s, s.round.value.tid);
    PosAt(s, s.round.value.cluster, s.front[s.round.value.cluster]);
  }

  lemma ThreadOfStill(s: Requests, s': Requests, a: Act, u: nat)
    requires !Moves(a) && Inv(s) && CanAct(s, a) && !ByThread(a) && s' == Do(s, a) && Wellformed(s') && u < |s.phases|
    ensures ThreadOk(s', u)
  {
    hide Inv, Wellformed, NextWaits, ThreadOk;
    if a.Give? || a.Wake? {
      ThreadOfAnswer(s, s', a, u);
    } else {
      ThreadOfRelease(s, s', a, u);
    }
  }

  lemma ThreadOfAnswer(s: Requests, s': Requests, a: Act, u: nat)
    requires (a.Give? || a.Wake?) && Inv(s) && CanAct(s, a) && s' == Do(s, a) && Wellformed(s') && u < |s.phases|
    ensures ThreadOk(s', u)
  {
    hide Inv, Wellformed, NextWaits, Recorded, HasAnswer;
    Shape(s);
    Bounds(s);
    ThreadAt(s, u);
    CurrentFacts(s);
    PosAt(s, s.round.value.cluster, s.front[s.round.value.cluster] + 1);
  }

  lemma ThreadOfRelease(s: Requests, s': Requests, a: Act, u: nat)
    requires (a.ReleaseHeld? || a.Unlock?) && Inv(s) && CanAct(s, a) && s' == Do(s, a) && Wellformed(s') && u < |s.phases|
    ensures ThreadOk(s', u)
  {
    hide Inv, Wellformed, NextWaits, Recorded, HasAnswer;
    Shape(s);
    Bounds(s);
    ThreadAt(s, u);
    ThreadAt(s, s.round.value.tid);
  }

  lemma RoundOfThread(s: Requests, s': Requests, a: Act)
    requires (a.SwapIn? || a.Recycle?) && Inv(s) && CanAct(s, a) && ByThread(a) && s' == Do(s, a) && Wellformed(s')
    ensures RoundOk(s')
  {
    hide Inv, Wellformed, Recorded;
    Shape(s);
    Bounds(s);
    OwnFacts(s, a);
    if s.round.Some? {
      OwnAt(s, s.round.value.tid);
    }
    if Active(s) {
      CurrentFacts(s);
    }
    if a.SwapIn? {
      TailAt(s, s.cluster[a.tid]);
    }
    if a.Recycle? {
      AnsweredAt(s, a.tid);
    }
  }

  lemma RoundOfOther(s: Requests, s': Requests, a: Act)
    requires (a.Reset? || a.Fill? || a.See?) && Inv(s) && CanAct(s, a) && s' == Do(s, a) && Wellformed(s')
    ensures RoundOk(s')
  {
    hide Inv, Wellformed, Recorded;
    Shape(s);
    Bounds(s);
    OwnFacts(s, a);
    if s.round.Some? {
      OwnAt(s, s.round.value.tid);
    }
    if Active(s) {
      CurrentFacts(s);
    }
  }

  lemma RoundOfTakeLock(s: Requests, s': Requests, t: nat)
    requires Inv(s) && CanAct(s, TakeLock(t)) && s' == Do(s, TakeLock(t)) && Wellformed(s')
    ensures RoundOk(s')
  {
    hide Inv, Wellformed, Recorded;
    Shape(s);
    Bounds(s);
    DesignatedAt(s, t);
    ThreadAt(s, t);
    ChainAt(s, s.cluster[t]);
  }

  lemma RoundOfRound(s: Requests, s': Requests, a: Act)
    requires Inv(s) && CanAct(s, a) && !ByThread(a) && s' == Do(s, a) && Wellformed(s')
    ensures RoundOk(s')
  {
    hide Inv, Wellformed, Recorded;
    Shape(s);
    Bounds(s);
    if Active(s) {
      CurrentFacts(s);
      PosAt(s, s.round.value.cluster, s.front[s.round.value.cluster]);
      OwnAt(s, s.round.value.tid);
      if a.Pass? || a.Hold? {
        NextFacts(s);
      }
    }
  }

  lemma ActInv(s: Requests, a: Act)
    requires Inv(s) && CanAct(s, a)
    ensures Inv(Do(s, a))
  {
    WellformedDo(s, a);
    var s' := Do(s, a);
    Sizes(s, a);
    hide Wellformed, CanAct, Do, ChainOk, PosOk, ReqOk, ThreadOk, RoundOk, ByThread, Moves;
    RoundOfDo(s, s', a);
    forall c | 0 <= c < |s'.chain|
      ensures ChainOk(s', c)
    {
      ChainOfDo(s, s', a, c);
    }
    forall c, p | 0 <= c < |s'.chain| && s'.front[c] <= p < |s'.chain[c]|
      ensures PosOk(s', c, p)
    {
      PosOfDo(s, s', a, c, p);
    }
    forall r | 0 <= r < |s'.next|
      ensures ReqOk(s', r)
    {
      ReqOfDo(s, s', a, r);
    }
    forall t | 0 <= t < |s'.phases|
      ensures ThreadOk(s', t)
    {
      ThreadOfDo(s, s', a, t);
    }
  }

  lemma Sizes(s: Requests, a: Act)
    requires Wellformed(s) && CanAct(s, a)
    ensures var s' := Do(s, a);
      |s'.next| == |s.next| && |s'.chain| == |s.chain| && |s'.phases| == |s.phases| && s'.cluster == s.cluster
  {
  }

  lemma RoundOfDo(s: Requests, s': Requests, a: Act)
    requires Inv(s) && Wellformed(s) && CanAct(s, a) && s' == Do(s, a) && Wellformed(s')
    ensures RoundOk(s')
  {
    hide Inv, Wellformed, CanAct, Do, RoundOk;
    if !ByThread(a) {
      RoundOfRound(s, s', a);
    } else if a.SwapIn? || a.Recycle? {
      RoundOfThread(s, s', a);
    } else if a.TakeLock? {
      RoundOfTakeLock(s, s', a.tid);
    } else {
      RoundOfOther(s, s', a);
    }
  }

  lemma ChainOfDo(s: Requests, s': Requests, a: Act, c: nat)
    requires Inv(s) && Wellformed(s) && CanAct(s, a) && s' == Do(s, a) && Wellformed(s') && c < |s.chain|
    ensures |s'.chain| == |s.chain| && ChainOk(s', c)
  {
    hide Inv, Wellformed, CanAct, Do, ChainOk;
    Sizes(s, a);
    if ByThread(a) {
      ChainOfThread(s, s', a, c);
    } else {
      ChainOfRound(s, s', a, c);
    }
  }

  lemma PosOfDo(s: Requests, s': Requests, a: Act, c: nat, p: nat)
    requires Inv(s) && Wellformed(s) && CanAct(s, a) && s' == Do(s, a) && Wellformed(s')
    requires c < |s.chain| && |s'.chain| == |s.chain| && s'.front[c] <= p < |s'.chain[c]|
    ensures PosOk(s', c, p)
  {
    hide Inv, Wellformed, CanAct, Do, PosOk;
    if !ByThread(a) {
      PosOfRound(s, s', a, c, p);
    } else if a.SwapIn? {
      PosOfSwapIn(s, s', a.tid, c, p);
    } else {
      PosOfThread(s, s', a, c, p);
    }
  }

  lemma ReqOfDo(s: Requests, s': Requests, a: Act, r: nat)
    requires Inv(s) && Wellformed(s) && CanAct(s, a) && s' == Do(s, a) && Wellformed(s') && r < |s.next| == |s'.next|
    ensures ReqOk(s', r)
  {
    hide Inv, Wellformed, CanAct, Do, ReqOk;
    if !ByThread(a) {
      if Moves(a) {
        if a.Hold? {
          ReqOfHold(s, s', r);
        } else {
          ReqOfMark(s, s', a, r);
        }
      } else {
        ReqOfStill(s, s', a, r);
      }
    } else if a.SwapIn? {
      ReqOfSwapIn(s, s', a.tid, r);
    } else {
      ReqOfThread(s, s', a, r);
    }
  }

  lemma ThreadOfDo(s: Requests, s': Requests, a: Act, t: nat)
    requires Inv(s) && Wellformed(s) && CanAct(s, a) && s' == Do(s, a) && Wellformed(s') && t < |s.phases| == |s'.phases|
    ensures ThreadOk(s', t)
  {
    hide Inv, Wellformed, CanAct, Do, ThreadOk;
    if !ByThread(a) {
      if Moves(a) {
        ThreadOfRound(s, s', a, t);
      } else {
        ThreadOfStill(s, s', a, t);
      }
    } else if a.SwapIn? {
      ThreadOfSwapIn(s, s', a.tid, t);
    } else if a.See? || a.Recycle? {
      ThreadOfThread(s, s', a, t);
    } else {
      ThreadOfOther(s, s', a, t);
    }
  }
}
