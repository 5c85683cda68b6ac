/** Order preservation of a parallel kernel between two rings. */
module OrderedKernel {
  // Any number of workers run the same kernel body: reserve a pop on a ticket-issuing input queue,
  // receive a ticket, and then either push on the ticket-serving output queue when it is the
  // ticket's turn, or only consume the ticket.  Both queues are ring machines whose other users
  // (producers, consumers, commits) step freely in between.  A job is one successful pop; job j is
  // the j-th one in the order of the swaps on the input's reserved head.

  import opened RingIndex
  import R = RingQueue
  import Tickets

  datatype Stage =
    | Reserved               // swapped the reserved head, waiting in issue()
    | Numbered               // took a number, has not yet published LastIndex
    | Ticketed               // issue() returned
    | Cleared                // saw its turn on the ticket server
    | Pushed                 // reserved its window on the output queue
    | Finished(push: bool)   // consumed the ticket, after a push or without one

  datatype Kernel<I, O> = Kernel(
    input: R.Ring<I>, output: R.Ring<O>,
    issued: nat, lastIndex: nat,          // the issuer's IssuedTicket and LastIndex
    cores: nat, slots: seq<int>,          // the per-CPU ticket server
    stages: seq<Stage>, tickets: seq<nat>,
    published: nat, served: nat, pushedBy: seq<nat>)

  datatype Action<I, O> =
    | Input(a: R.Action<I>)               // any step on the input queue; a successful pop starts a job
    | Number(job: nat)
    | Publish(job: nat)
    | CheckTurn(job: nat)
    | SwapOutput(job: nat, tid: nat, num: nat)
    | Output(b: R.Action<O>)              // any other step on the output queue
    | ConsumeAfterPush(job: nat)
    | ConsumeOnly(job: nat)

  function Init<I, O>(inBuff: seq<I>, outBuff: seq<O>, cores: nat): Kernel<I, O>
    requires cores > 0
  {
    Kernel(R.Init(inBuff), R.Init(outBuff), 0, 0, cores,
           seq(cores, r requires 0 <= r < cores => if r == 0 then 0 else r - cores), [], [], 0, 0, [])
  }

  predicate Wellformed<I, O>(s: Kernel<I, O>) {
    && R.Wellformed(s.input) && R.Wellformed(s.output)
    && s.cores > 0 && |s.slots| == s.cores && |s.stages| == |s.tickets| == |s.input.pops|
  }

  /** A pop is committed only after its reservation returned, that is, after its ticket was issued. */
  predicate Enabled<I, O>(s: Kernel<I, O>, a: Action<I, O>)
    requires Wellformed(s)
  {
    match a
    case Input(b) =>
      R.Enabled(s.input, b) && (b.CommitPop? ==> !s.stages[b.k].Reserved? && !s.stages[b.k].Numbered?)
    case Number(j) => j < |s.stages| && s.stages[j].Reserved?
    case Publish(j) => j < |s.stages| && s.stages[j].Numbered?
    case CheckTurn(j) => j < |s.stages| && s.stages[j].Ticketed?
    case SwapOutput(j, tid, num) =>
      j < |s.stages| && s.stages[j].Cleared? && R.Enabled(s.output, R.SwapReservedTail(tid, num))
    case Output(b) => R.Enabled(s.output, b) && !b.SwapReservedTail?
    case ConsumeAfterPush(j) => j < |s.stages| && s.stages[j].Pushed?
    case ConsumeOnly(j) => j < |s.stages| && s.stages[j].Cleared?
  }

  /** SingleOrderingTicketIssuer.issue, first half: take a number once LastIndex is one's old index. */
  function DoNumber<I, O>(s: Kernel<I, O>, j: nat): Kernel<I, O>
    requires Wellformed(s) && j < |s.stages|
  {
    if s.lastIndex != s.input.pops[j].oldIndex then s
    else s.(issued := s.issued + 1, stages := s.stages[j := Numbered], tickets := s.tickets[j := s.issued])
  }

  /** PerCPUOrderingTicketServer.consume_safe. */
  function DoConsume<I, O>(s: Kernel<I, O>, j: nat, push: bool): Kernel<I, O>
    requires Wellformed(s) && j < |s.stages|
  {
    var slot := Index(s.cores, s.tickets[j] + 1);
    s.(slots := s.slots[slot := s.slots[slot] + s.cores], stages := s.stages[j := Finished(push)], served := s.served + 1)
  }

  function Apply<I, O>(s: Kernel<I, O>, a: Action<I, O>): Kernel<I, O>
    requires Wellformed(s) && Enabled(s, a)
  {
    match a
    case Input(b) =>
      var input := R.Apply(s.input, b);
      if |input.pops| > |s.input.pops| then
        s.(input := input, stages := s.stages + [Reserved], tickets := s.tickets + [0])
      else s.(input := input)
    case Number(j) => DoNumber(s, j)
    case Publish(j) =>
      s.(lastIndex := s.input.pops[j].newIndex, stages := s.stages[j := Ticketed], published := s.published + 1)
    case CheckTurn(j) =>
      if s.slots[Index(s.cores, s.tickets[j])] == s.tickets[j] then s.(stages := s.stages[j := Cleared]) else s
    case SwapOutput(j, tid, num) =>
      var output := R.Apply(s.output, R.SwapReservedTail(tid, num));
      if |output.pushes| > |s.output.pushes| then
        s.(output := output, stages := s.stages[j := Pushed], pushedBy := s.pushedBy + [j])
      else s.(output := output, stages := s.stages[j := Ticketed])
    case Output(b) => s.(output := R.Apply(s.output, b))
    case ConsumeAfterPush(j) => DoConsume(s, j, true)
    case ConsumeOnly(j) => DoConsume(s, j, false)
  }

  // ---------------------------------------------------------------------------------------------
  // The invariant
  // ---------------------------------------------------------------------------------------------

  /** Numbers are handed out in job order, and LastIndex is the index of the next job to number. */
  ghost predicate IssuerOk<I, O>(s: Kernel<I, O>)
    requires Wellformed(s)
  {
    && s.published <= s.issued <= s.published + 1 && s.issued <= |s.stages|
    && s.input.popDone <= s.published
    && s.lastIndex == Index(s.input.n, R.StartOf(s.input.pops, s.published, s.input.rHeadCount))
    && (forall j :: 0 <= j < |s.stages| ==>
          && (s.stages[j].Reserved? <==> j >= s.issued)
          && (s.stages[j].Numbered? <==> s.published <= j < s.issued)
          && (j < s.issued ==> s.tickets[j] == j))
  }

  /** Exactly the job `served` can have its turn. */
  ghost predicate ServerOk<I, O>(s: Kernel<I, O>)
    requires Wellformed(s)
  {
    && s.served <= s.published
    && (forall r :: 0 <= r < s.cores ==> s.slots[r] == Tickets.SlotValue(s.cores, s.served, r))
    && (forall j :: 0 <= j < |s.stages| ==>
          && (s.stages[j].Finished? <==> j < s.served)
          && (s.stages[j].Cleared? || s.stages[j].Pushed? ==> j == s.served))
  }

  predicate HasPushed(st: Stage) { st.Pushed? || st == Finished(true) }

  /** `pushedBy` lists the jobs that pushed, in job order, one per reservation of the output queue. */
  ghost predicate OutputOk<I, O>(s: Kernel<I, O>)
    requires Wellformed(s)
  {
    && |s.pushedBy| == |s.output.pushes|
    && (forall m :: 0 <= m < |s.pushedBy| ==> s.pushedBy[m] < |s.stages| && HasPushed(s.stages[s.pushedBy[m]]))
    && (forall l, m :: 0 <= l < m < |s.pushedBy| ==> s.pushedBy[l] < s.pushedBy[m])
    && (forall j :: 0 <= j < |s.stages| && HasPushed(s.stages[j]) ==> j in s.pushedBy)
  }

  ghost predicate Inv<I, O>(s: Kernel<I, O>) {
    && Wellformed(s) && R.Inv(s.input) && R.Inv(s.output)
    && IssuerOk(s) && ServerOk(s) && OutputOk(s)
  }

  lemma InitInv<I, O>(inBuff: seq<I>, outBuff: seq<O>, cores: nat)
    requires cores > 0 && |inBuff| > 0 && |outBuff| > 0
    ensures Inv(Init(inBuff, outBuff, cores))
  {
    R.InitInv(inBuff);
    R.InitInv(outBuff);
  }

  /** A step that overruns one of the two rings: a reserving swap that comes a lap or more after its
      reads and finds them still valid. */
  predicate Overruns<I, O>(s: Kernel<I, O>, a: Action<I, O>)
    requires Wellformed(s) && Enabled(s, a)
  {
    match a
    case Input(b) => R.Overruns(s.input, b)
    case SwapOutput(_, tid, num) => R.Overruns(s.output, R.SwapReservedTail(tid, num))
    case Output(b) => R.Overruns(s.output, b)
    case _ => false
  }

  /** What a step on a ring can do to its reservations. */
  lemma RingStep<E>(s: R.Ring<E>, b: R.Action<E>)
    requires R.Inv(s) && R.Wellformed(s) && R.Enabled(s, b) && !R.Overruns(s, b)
    ensures R.Inv(R.Apply(s, b)) && R.Wellformed(R.Apply(s, b))
    ensures var t := R.Apply(s, b);
      && t.n == s.n && s.pops <= t.pops && |t.pops| <= |s.pops| + 1
      && s.pushes <= t.pushes && |t.pushes| <= |s.pushes| + 1
      && (|t.pops| == |s.pops| ==> t.rHeadCount == s.rHeadCount)
      && (|t.pops| > |s.pops| ==> t.pops[|s.pops|].start == s.rHeadCount)
      && (|t.pushes| > |s.pushes| ==> b.SwapReservedTail?)
      && (b.CommitPop? ==> t.popDone == if b.k == s.popDone then s.popDone + 1 else s.popDone)
      && (!b.CommitPop? ==> t.popDone == s.popDone)
  {
    hide Index, R.Inv, R.Wellformed, R.Apply, R.Overruns;
    R.StepInv(s, b);
    R.InvLengths(R.Apply(s, b));
    RingEffect(s, b);
    if b.CommitPop? {
      R.CommitPopOnlyOldest(s, b.k);
    }
  }

  lemma RingEffect<E>(s: R.Ring<E>, b: R.Action<E>)
    requires R.Wellformed(s) && R.Enabled(s, b)
    ensures var t := R.Apply(s, b);
      && t.n == s.n && s.pops <= t.pops && |t.pops| <= |s.pops| + 1
      && s.pushes <= t.pushes && |t.pushes| <= |s.pushes| + 1
      && (|t.pops| == |s.pops| ==> t.rHeadCount == s.rHeadCount)
      && (|t.pops| > |s.pops| ==> t.pops[|s.pops|].start == s.rHeadCount)
      && (|t.pushes| > |s.pushes| ==> b.SwapReservedTail?)
      && t.popDone == if b.CommitPop? && s.head == s.pops[b.k].oldIndex then s.popDone + 1 else s.popDone
  {
    hide R.Contents, R.CellOf, R.WinsTail, R.WinsHead, Advance;
  }

  /** The waiting issuer lets exactly the next unnumbered job pass: no two outstanding pops have the
      same old index. */
  lemma IssuerPassesNext<I, O>(s: Kernel<I, O>, j: nat)
    requires Inv(s) && j < |s.stages| && s.stages[j].Reserved?
    ensures s.lastIndex == s.input.pops[j].oldIndex <==> j == s.published
    ensures j == s.published ==> s.issued == s.published
  {
    hide Index;
    R.PopWindowBounds(s.input, j);
    if s.published < j {
      R.ChainOrder(s.input.n, s.input.pops, s.input.rHeadCount, s.published, j);
    }
    R.PopWindowBounds(s.input, s.published);
    SameIndexSameCounter(s.input.n, s.input.pops[s.published].start, s.input.pops[j].start);
  }

  /** The per-CPU server clears exactly the job whose turn it is. */
  lemma ServerClearsServed<I, O>(s: Kernel<I, O>, j: nat)
    requires Inv(s) && j < |s.stages| && s.stages[j].Ticketed?
    ensures s.tickets[j] == j
    ensures s.slots[Index(s.cores, s.tickets[j])] == s.tickets[j] <==> j == s.served
  {
    Tickets.SlotHolds(s.cores, s.served, j);
  }

  lemma InputStep<I, O>(s: Kernel<I, O>, b: R.Action<I>)
    requires Inv(s) && Enabled(s, Input(b))
    ensures Inv(Apply(s, Input(b))) <==> !R.Overruns(s.input, b)
  {
    hide Index, R.Inv, R.Wellformed, R.Apply, R.Overruns;
    R.StepInv(s.input, b);
    if !R.Overruns(s.input, b) {
      RingStep(s.input, b);
      R.InvLengths(s.input);
      NextStart(s, Apply(s, Input(b)).input);
    }
  }

  /** Growing the input's history does not move the start of the next job to number. */
  lemma NextStart<I, O>(s: Kernel<I, O>, t: R.Ring<I>)
    requires Inv(s) && s.input.pops <= t.pops && t.n == s.input.n
    requires |t.pops| == |s.input.pops| ==> t.rHeadCount == s.input.rHeadCount
    requires |t.pops| > |s.input.pops| ==> t.pops[|s.input.pops|].start == s.input.rHeadCount
    ensures R.StartOf(t.pops, s.published, t.rHeadCount) == R.StartOf(s.input.pops, s.published, s.input.rHeadCount)
  {
  }

  lemma OutputStep<I, O>(s: Kernel<I, O>, b: R.Action<O>)
    requires Inv(s) && Enabled(s, Output(b))
    ensures Inv(Apply(s, Output(b))) <==> !R.Overruns(s.output, b)
  {
    hide Index, R.Inv, R.Wellformed, R.Enabled, R.Apply, R.Overruns;
    R.StepInv(s.output, b);
    if !R.Overruns(s.output, b) {
      RingStep(s.output, b);
    }
  }

  lemma SwapOutputStep<I, O>(s: Kernel<I, O>, j: nat, tid: nat, num: nat)
    requires Inv(s) && Enabled(s, SwapOutput(j, tid, num))
    ensures Inv(Apply(s, SwapOutput(j, tid, num))) <==> !R.Overruns(s.output, R.SwapReservedTail(tid, num))
  {
    hide Index, R.Inv, R.Wellformed, R.Enabled, R.Apply, R.Overruns;
    R.StepInv(s.output, R.SwapReservedTail(tid, num));
    if !R.Overruns(s.output, R.SwapReservedTail(tid, num)) {
      RingStep(s.output, R.SwapReservedTail(tid, num));
    }
  }

  /** Consuming ticket `k` leaves the slots right for `k + 1`. */
  lemma SlotsAfter(cores: nat, k: nat, slots: seq<int>, slots': seq<int>)
    requires |slots| == cores > 0 && forall r :: 0 <= r < cores ==> slots[r] == Tickets.SlotValue(cores, k, r)
    requires slots' == slots[Index(cores, k + 1) := slots[Index(cores, k + 1)] + cores]
    ensures |slots'| == cores && forall r :: 0 <= r < cores ==> slots'[r] == Tickets.SlotValue(cores, k + 1, r)
  {
    hide Index, Tickets.SlotValue;
    forall r | 0 <= r < cores
      ensures slots'[r] == Tickets.SlotValue(cores, k + 1, r)
    {
      Tickets.SlotAdvances(cores, k, r);
    }
  }

  lemma ConsumeStep<I, O>(s: Kernel<I, O>, j: nat, push: bool)
    requires Inv(s) && j < |s.stages| && (if push then s.stages[j].Pushed? else s.stages[j].Cleared?)
    ensures Inv(DoConsume(s, j, push))
  {
    hide Index, R.Inv, R.Wellformed, Tickets.SlotValue;
    assert s.tickets[j] == j == s.served;
    SlotsAfter(s.cores, s.served, s.slots, DoConsume(s, j, push).slots);
  }

  lemma NumberStep<I, O>(s: Kernel<I, O>, j: nat)
    requires Inv(s) && j < |s.stages| && s.stages[j].Reserved?
    ensures Inv(DoNumber(s, j))
  {
    IssuerPassesNext(s, j);
    hide Index, R.Inv, R.Wellformed;
  }

  lemma PublishStep<I, O>(s: Kernel<I, O>, j: nat)
    requires Inv(s) && Enabled(s, Publish(j))
    ensures Inv(Apply(s, Publish(j)))
  {
    hide Index, R.Inv, R.Wellformed;
    NewIndexIsNext(s, j);
  }

  lemma NewIndexIsNext<I, O>(s: Kernel<I, O>, j: nat)
    requires Inv(s) && j < |s.stages|
    ensures s.input.n > 0
    ensures s.input.pops[j].newIndex == Index(s.input.n, R.StartOf(s.input.pops, j + 1, s.input.rHeadCount))
  {
    hide Index;
    assert R.EndsAtNext(s.input.pops, j, s.input.rHeadCount);
  }

  lemma CheckTurnStep<I, O>(s: Kernel<I, O>, j: nat)
    requires Inv(s) && Enabled(s, CheckTurn(j))
    ensures Inv(Apply(s, CheckTurn(j)))
  {
    hide Index, R.Inv, R.Wellformed;
    ServerClearsServed(s, j);
  }

  /** Every step keeps the joint invariant, except exactly those that overrun a ring. */
  lemma StepInv<I, O>(s: Kernel<I, O>, a: Action<I, O>)
    requires Inv(s) && Enabled(s, a)
    ensures Inv(Apply(s, a)) <==> !Overruns(s, a)
  {
    hide Inv, DoNumber, DoConsume, Wellformed, R.Overruns;
    match a
    case Input(b) => InputStep(s, b);
    case Number(j) => NumberStep(s, j);
    case Publish(j) => PublishStep(s, j);
    case CheckTurn(j) => CheckTurnStep(s, j);
    case SwapOutput(j, tid, num) => SwapOutputStep(s, j, tid, num);
    case Output(b) => OutputStep(s, b);
    case ConsumeAfterPush(j) => ConsumeStep(s, j, true);
    case ConsumeOnly(j) => ConsumeStep(s, j, false);
  }

  // ---------------------------------------------------------------------------------------------
  // Whole runs
  // ---------------------------------------------------------------------------------------------

  ghost predicate CanRun<I, O>(s: Kernel<I, O>, run: seq<Action<I, O>>)
    decreases |run|
  {
    run == [] || (Wellformed(s) && Enabled(s, run[0]) && CanRun(Apply(s, run[0]), run[1..]))
  }

  ghost function Run<I, O>(s: Kernel<I, O>, run: seq<Action<I, O>>): Kernel<I, O>
    requires CanRun(s, run)
    decreases |run|
  {
    if run == [] then s else Run(Apply(s, run[0]), run[1..])
  }

  ghost predicate NeverOverruns<I, O>(s: Kernel<I, O>, run: seq<Action<I, O>>)
    requires CanRun(s, run)
    decreases |run|
  {
    run == [] || (!Overruns(s, run[0]) && NeverOverruns(Apply(s, run[0]), run[1..]))
  }

  lemma {:induction false} RunInv<I, O>(s: Kernel<I, O>, run: seq<Action<I, O>>)
    requires Inv(s) && CanRun(s, run) && NeverOverruns(s, run)
    ensures Inv(Run(s, run))
    decreases |run|
  {
    hide Inv, Wellformed, Enabled, Apply, Overruns;
    if run != [] {
      StepInv(s, run[0]);
      RunInv(Apply(s, run[0]), run[1..]);
    }
  }

  /** The m-th window reserved on the output queue belongs to job `pushedBy[m]`, and these jobs are
      increasing, so of any two outputs the one that lies earlier in the output stems from the input
      popped earlier; no job that pushed is missing; exactly the jobs before the one being served are
      finished; and every issued ticket is its job's position. */
  ghost predicate KeepsOrder<I, O>(s: Kernel<I, O>) {
    && |s.pushedBy| == |s.output.pushes| && |s.stages| == |s.tickets| == |s.input.pops|
    && (forall m :: 0 <= m < |s.pushedBy| ==> s.pushedBy[m] < |s.input.pops|)
    && (forall l, m :: 0 <= l < m < |s.pushedBy| ==>
          && s.pushedBy[l] < s.pushedBy[m]
          && s.input.pops[s.pushedBy[l]].start < s.input.pops[s.pushedBy[m]].start
          && s.output.pushes[l].start < s.output.pushes[m].start)
    && (forall j :: 0 <= j < |s.stages| ==> (j in s.pushedBy <==> HasPushed(s.stages[j])))
    && s.served <= |s.stages|
    && (forall j :: 0 <= j < |s.stages| ==> (s.stages[j].Finished? <==> j < s.served))
    && (forall j :: 0 <= j < |s.stages| && !s.stages[j].Reserved? ==> s.tickets[j] == j)
  }

  /** Order preservation, in every state of every run that overruns no ring, for any number of workers. */
  lemma OrderPreserved<I, O>(inBuff: seq<I>, outBuff: seq<O>, cores: nat, run: seq<Action<I, O>>)
    requires cores > 0 && |inBuff| > 0 && |outBuff| > 0 && CanRun(Init(inBuff, outBuff, cores), run)
    requires NeverOverruns(Init(inBuff, outBuff, cores), run)
    ensures KeepsOrder(Run(Init(inBuff, outBuff, cores), run))
  {
    hide Inv, KeepsOrder, Run;
    InitInv(inBuff, outBuff, cores);
    RunInv(Init(inBuff, outBuff, cores), run);
    InvOrders(Run(Init(inBuff, outBuff, cores), run));
  }

  lemma StartsIncrease<E>(s: R.Ring<E>, i: nat, j: nat)
    requires R.Inv(s)
    ensures i < j < |s.pops| ==> s.pops[i].start < s.pops[j].start
    ensures i < j < |s.pushes| ==> s.pushes[i].start < s.pushes[j].start
  {
    hide Index;
    if i < j < |s.pops| {
      R.ChainOrder(s.n, s.pops, s.rHeadCount, i, j);
    }
    if i < j < |s.pushes| {
      R.ChainOrder(s.n, s.pushes, s.rTailCount, i, j);
    }
  }

  lemma InvOrders<I, O>(s: Kernel<I, O>)
    requires Inv(s)
    ensures KeepsOrder(s)
  {
    hide R.Inv, Index;
    forall l, m | 0 <= l < m < |s.pushedBy|
      ensures && s.pushedBy[l] < s.pushedBy[m]
              && s.input.pops[s.pushedBy[l]].start < s.input.pops[s.pushedBy[m]].start
              && s.output.pushes[l].start < s.output.pushes[m].start
    {
      StartsIncrease(s.input, s.pushedBy[l], s.pushedBy[m]);
      StartsIncrease(s.output, l, m);
    }
  }

  // ---------------------------------------------------------------------------------------------
  // No job waits in vain
  // ---------------------------------------------------------------------------------------------

  /** A popping job gets its number, which is its position, exactly when all jobs before it have theirs;
      otherwise its look at LastIndex changes nothing. */
  lemma NumbersInTurn<I, O>(s: Kernel<I, O>, j: nat)
    requires Inv(s) && Enabled(s, Number(j))
    ensures Apply(s, Number(j)) ==
      if j == s.published then s.(issued := j + 1, stages := s.stages[j := Numbered], tickets := s.tickets[j := j]) else s
  {
    hide Index, R.Inv, R.Wellformed;
    IssuerPassesNext(s, j);
  }

  /** A ticketed job is cleared exactly when all jobs before it have consumed their tickets. */
  lemma ClearsInTurn<I, O>(s: Kernel<I, O>, j: nat)
    requires Inv(s) && Enabled(s, CheckTurn(j))
    ensures Apply(s, CheckTurn(j)) == if j == s.served then s.(stages := s.stages[j := Cleared]) else s
  {
    hide Index, R.Inv, R.Wellformed;
    ServerClearsServed(s, j);
  }

  /** A cleared job whose swap on the output queue makes a reservation has pushed; if another thread got
      through first, or there is no room, it has to see its turn again. */
  lemma PushesInTurn<I, O>(s: Kernel<I, O>, j: nat, tid: nat, num: nat)
    requires Inv(s) && Enabled(s, SwapOutput(j, tid, num))
    ensures j == s.served
    ensures var s', output := Apply(s, SwapOutput(j, tid, num)), R.Apply(s.output, R.SwapReservedTail(tid, num));
      && s'.output == output && s'.input == s.input && s'.served == s.served && s'.slots == s.slots
      && (if |output.pushes| > |s.output.pushes|
          then s'.stages == s.stages[j := Pushed] && s'.pushedBy == s.pushedBy + [j]
          else s'.stages == s.stages[j := Ticketed] && s'.pushedBy == s.pushedBy)
  {
    hide Index, R.Inv, R.Wellformed, R.Apply, R.Enabled;
  }

  function Rank(st: Stage): nat {
    match st
    case Reserved => 0
    case Numbered => 1
    case Ticketed => 2
    case Cleared => 3
    case Pushed => 4
    case Finished(_) => 5
  }

  lemma OldestStage<I, O>(s: Kernel<I, O>)
    requires Inv(s) && s.served < |s.stages|
    ensures Wellformed(s) && !s.stages[s.served].Finished? && (s.stages[s.served].Reserved? ==> s.served == s.published)
  {
    hide R.Inv, R.Wellformed, Index;
  }

  lemma MayPush<I, O>(s: Kernel<I, O>)
    requires Inv(s) && s.served < |s.stages| && Wellformed(s)
    ensures s.stages[s.served].Cleared? ==>
      forall tid, num :: R.Enabled(s.output, R.SwapReservedTail(tid, num)) ==> Enabled(s, SwapOutput(s.served, tid, num))
  {
    hide Inv, R.Wellformed, R.Enabled;
  }

  /** Its next access, in the order of its stages. */
  function NextOf<I, O>(st: Stage, j: nat): Action<I, O> {
    match st
    case Reserved => Number(j)
    case Numbered => Publish(j)
    case Ticketed => CheckTurn(j)
    case Cleared => ConsumeOnly(j)
    case _ => ConsumeAfterPush(j)
  }

  /** What these accesses do to the job's stage, when it need not wait. */
  lemma StageAfter<I, O>(s: Kernel<I, O>, j: nat)
    requires Wellformed(s) && j < |s.stages| && !s.stages[j].Finished?
    requires s.stages[j].Reserved? ==> s.lastIndex == s.input.pops[j].oldIndex
    requires s.stages[j].Ticketed? ==> s.slots[Index(s.cores, s.tickets[j])] == s.tickets[j]
    ensures var a := NextOf<I, O>(s.stages[j], j);
      && Enabled(s, a) && |Apply(s, a).stages| == |s.stages| && Rank(Apply(s, a).stages[j]) > Rank(s.stages[j])
  {
    hide Index, R.Wellformed, R.Enabled, R.Apply;
  }

  /** The oldest job that is not finished can always go on, whatever the others do: once cleared, to push
      if its swap has been prepared, or to consume its ticket. */
  lemma OldestAdvances<I, O>(s: Kernel<I, O>)
    requires Inv(s) && s.served < |s.stages|
    ensures var a := NextOf<I, O>(s.stages[s.served], s.served);
      && Enabled(s, a) && !Overruns(s, a) && |Apply(s, a).stages| == |s.stages|
      && Rank(Apply(s, a).stages[s.served]) > Rank(s.stages[s.served])
    ensures s.stages[s.served].Cleared? ==>
      forall tid, num :: R.Enabled(s.output, R.SwapReservedTail(tid, num)) ==> Enabled(s, SwapOutput(s.served, tid, num))
  {
    MayPush(s);
    OldestStage(s);
    hide Inv, Index, Wellformed, Enabled, Apply, Rank;
    var j := s.served;
    if s.stages[j].Reserved? {
      IssuerPassesNext(s, j);
    }
    if s.stages[j].Ticketed? {
      ServerClearsServed(s, j);
    }
    StageAfter(s, j);
  }
}
