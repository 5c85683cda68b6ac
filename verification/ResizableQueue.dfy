/** The resizable reserve/commit queue: growing, compacting and shrinking under live traffic.

    One pusher and one popper at a time are inside the two reserve sections (TwoPhaseLock); between
    its reads and its reservation either of them can be overtaken by commits and, for the popper, by
    a growing queue.  Any number of reservations may be outstanding on both sides. */
module ResizableQueue {
  import opened Common
  import opened RingIndex
  import opened BufferManager

  /** `minNum` is the size asked for; the buffer manager works between `sizeMin` and `sizeMax`. */
  datatype Config = Config(
    minNum: nat, sizeMin: nat, sizeMax: nat,
    elementsPerPage: nat, growthRatio: real, shrinkStartRatio: real, shrinkRatio: real)

  /** An outstanding or finished reservation with the window it was handed. */
  datatype Held = Held(start: nat, num: nat, span: nat, win: (Window, Window), newIndex: nat)

  /** What reservePushN read before it checked for room. */
  datatype PushReads = PushReads(num: nat, numElm: nat, rTail: nat, head: nat)

  datatype Pusher =
    | Idle
    | Checking(seen: PushReads)     // about to check for room
    | Wrapped(seen: PushReads)      // no room and wrapped around: are pushes outstanding?
    | Compacting(seen: PushReads)   // none is: about to try the pop lock
    | Storing(seen: PushReads, size: nat)   // compacted, gave the pop lock back, about to store NumElm
    | Rechecking(seen: PushReads)   // resized, about to check again with the new NumElm

  datatype PopReads = PopReads(peek: nat, num: nat, numElm: nat, rHead: nat, tail: nat)

  /** A popper reads NumElm first.  ReservedHead moves only under the pop lock, so reading it and Tail
      is one step. */
  datatype Popper =
    | Outside
    | Sizing(peekNum: nat, popNum: nat, read: nat)   // has read NumElm
    | Reading(pop: PopReads)
    | Reserved   // still holds the reserve lock, may shrink

  /** `numElm` is NumElm, as every thread reads it; `n` is the size that the indices refer to, which is
      the same except between a compaction and its store to NumElm.  Behind the indices stand
      unbounded counters and the log of committed elements, which no step looks at.  A resize in
      place is one step, and so is a compaction, from taking the pop lock to giving it back. */
  datatype Queue<E> = Queue(
    cfg: Config, n: nat, numElm: nat, buff: seq<E>,
    head: nat, rHead: nat, tail: nat, rTail: nat,
    pusher: Pusher, popper: Popper,
    headCount: nat, rHeadCount: nat, tailCount: nat, rTailCount: nat,
    pushes: seq<Held>, pushDone: nat,
    pops: seq<Held>, popDone: nat,
    log: seq<E>)

  datatype Action<E> =
    | ReadForPush(pushNum: nat)
    | ReservePush                    // enough room at either check, or refused at the second
    | GrowQueue(size: nat)           // not wrapped around: resize in place
    | SeeWrapped                     // wrapped around: no resize in place
    | GoCompact                      // no push is outstanding, and the dice say compact
    | SkipGrow                       // pushes are outstanding or the dice say no
    | CompactQueue(newSize: nat)     // under the pop lock
    | StoreSize                      // NumElm is stored after the pop lock was given back
    | WriteCell(k: nat, i: nat, v: E)
    | CommitPush
    | ReadSize(peek: nat, takes: nat)
    | ReadForPop
    | ReservePop
    | ShrinkQueue(shrunk: nat, seenHead: nat)
    | LeavePop
    | CommitPop

  // ---------------------------------------------------------------------------------------------
  // Sizes
  // ---------------------------------------------------------------------------------------------

  function CalcGrown(cfg: Config, numelm: nat, num: nat): int {
    ((numelm + num + 1) as real * (1.0 + cfg.growthRatio)).Floor
  }

  predicate ConfigOk(cfg: Config) {
    2 <= cfg.sizeMin <= cfg.sizeMax && cfg.growthRatio >= 0.0 && cfg.shrinkRatio >= 0.0
  }

  lemma CalcGrownEnough(cfg: Config, numelm: nat, num: nat)
    requires ConfigOk(cfg)
    ensures CalcGrown(cfg, numelm, num) >= numelm + num + 1
  {
    var x := (numelm + num + 1) as real;
    assert x * cfg.growthRatio >= 0.0;
    assert x * (1.0 + cfg.growthRatio) == x + x * cfg.growthRatio;
  }

  /** What is asked for beyond the need is the growth ratio's share of it, rounded down. */
  lemma CalcGrownExact(cfg: Config, numelm: nat, num: nat)
    requires ConfigOk(cfg)
    ensures var need, extra := numelm + num + 1, CalcGrown(cfg, numelm, num) - (numelm + num + 1);
      extra as real <= need as real * cfg.growthRatio < (extra + 1) as real
  {
    var x := (numelm + num + 1) as real;
    assert x * (1.0 + cfg.growthRatio) == x + x * cfg.growthRatio;
  }

  /** The buffer manager's answer to a request. */
  predicate Sized(cfg: Config, request: int, m: nat) {
    Granted(cfg.sizeMin, cfg.sizeMax, request, m)
  }

  // ---------------------------------------------------------------------------------------------
  // The steps
  // ---------------------------------------------------------------------------------------------

  function Init<E>(cfg: Config, buff: seq<E>): Queue<E> {
    Queue(cfg, cfg.sizeMin, cfg.sizeMin, buff, 0, 0, 0, 0, Idle, Outside, 0, 0, 0, 0, [], 0, [], 0, [])
  }

  predicate WindowInside(r: Held, size: nat) {
    forall i :: 0 <= i < r.span ==> CellAt(r.win, i) < size
  }

  predicate Wellformed<E>(s: Queue<E>) {
    && ConfigOk(s.cfg) && s.cfg.sizeMin <= s.n <= s.cfg.sizeMax == |s.buff|
    && s.head < s.n && s.rHead < s.n
    && s.pushDone <= |s.pushes| && s.popDone <= |s.pops|
    && (forall k :: 0 <= k < |s.pushes| ==> s.pushes[k].span == s.pushes[k].num && WindowInside(s.pushes[k], |s.buff|))
    && (forall k :: 0 <= k < |s.pops| ==> WindowInside(s.pops[k], |s.buff|))
    && (!s.pusher.Idle? ==> s.pusher.seen.rTail < s.pusher.seen.numElm) && SizeKnown(s)
  }

  /** NumElm lags behind only while a compaction has yet to store it. */
  predicate SizeKnown<E>(s: Queue<E>) {
    if s.pusher.Storing? then s.pusher.size == s.n && s.pusher.seen.numElm == s.numElm <= s.n else s.numElm == s.n
  }

  predicate Resizable<E>(s: Queue<E>) { s.head <= s.rTail }

  predicate Roomy(r: PushReads) { HaveEnoughRoom(r.numElm, r.rTail, r.head, r.num) }

  /** No popper is inside the pop lock, waits for it, or has yet to commit. */
  predicate PopLockFree<E>(s: Queue<E>) { s.popper.Outside? && s.popDone == |s.pops| }

  /** requireShrinkQueue: not wrapped around, larger than asked for, empty enough, and worth it. */
  predicate ShrinkWorthwhile(cfg: Config, n: nat, head: nat, rTail: nat)
    requires n >= 2
  {
    && head <= rTail
    && n != cfg.minNum
    && !(1.0 - (rTail - head) as real / (n - 1) as real < cfg.shrinkStartRatio)
    && Min(n - rTail - 1, (n as real * cfg.shrinkRatio).Floor) > cfg.elementsPerPage
  }

  /** The test with a `head` that may be overtaken by now. */
  predicate RequireShrink<E>(s: Queue<E>, head: nat)
    requires s.n >= 2
  {
    ShrinkWorthwhile(s.cfg, s.n, head, s.rTail)
  }

  /** The size a shrinking queue asks for: never so small that the reserved tail falls outside. */
  function ShrinkTo(cfg: Config, n: nat, rTail: nat): (target: int)
    ensures target > rTail
  {
    Max(rTail + 1, n - (n as real * cfg.shrinkRatio).Floor)
  }

  /** A shrinking queue asks for as much less as the shrink ratio and the reserved tail allow, and never
      for more. */
  lemma ShrinkToExact(cfg: Config, n: nat, rTail: nat)
    requires ConfigOk(cfg) && rTail < n
    ensures var target := ShrinkTo(cfg, n, rTail);
      && rTail < target <= n && (n - target) as real <= n as real * cfg.shrinkRatio
      && (target == rTail + 1 || n as real * cfg.shrinkRatio < (n - target + 1) as real)
  {
    assert n as real * cfg.shrinkRatio >= 0.0;
  }

  predicate Enabled<E>(s: Queue<E>, a: Action<E>)
    requires Wellformed(s)
  {
    match a
    case ReadForPush(num) => s.pusher.Idle? && num >= 1
    case ReservePush => (s.pusher.Checking? && Roomy(s.pusher.seen)) || s.pusher.Rechecking?
    case GrowQueue(m) =>
      s.pusher.Checking? && !Roomy(s.pusher.seen) && Resizable(s) &&
      Sized(s.cfg, CalcGrown(s.cfg, s.n, s.pusher.seen.num), m)
    case SeeWrapped => s.pusher.Checking? && !Roomy(s.pusher.seen) && !Resizable(s)
    case GoCompact => s.pusher.Wrapped? && s.tail == s.rTail
    case SkipGrow => s.pusher.Wrapped?
    case CompactQueue(m) =>
      s.pusher.Compacting? && Sized(s.cfg, CalcGrown(s.cfg, s.n, s.pusher.seen.num + CompactMove(s)), m)
    case StoreSize => s.pusher.Storing?
    case WriteCell(k, i, _) => s.pushDone <= k < |s.pushes| && i < s.pushes[k].num
    case CommitPush => s.pushDone < |s.pushes|
    case ReadSize(peek, num) => s.popper.Outside? && 1 <= num <= peek
    case ReadForPop => s.popper.Sizing?
    case ReservePop => s.popper.Reading?
    case ShrinkQueue(m, head) =>
      s.popper.Reserved? && s.pusher.Idle? && Resizable(s) && RequireShrink(s, head) &&
      Sized(s.cfg, ShrinkTo(s.cfg, s.n, s.rTail), m)
    case LeavePop => s.popper.Reserved?
    case CommitPop => s.popDone < |s.pops|
  }

  /** The number of elements the chosen case of compactQueue wants to move; none when the queue has
      been unwrapped in the meantime. */
  function CompactMove<E>(s: Queue<E>): nat
    requires Wellformed(s)
  {
    if Resizable(s) then 0
    else if s.rTail <= s.n - s.head then s.rTail
    else s.n - s.head
  }

  /** Copy `num` cells of `b` from `src` to `dst`, all read before any is written. */
  function Move<E>(b: seq<E>, dst: nat, src: nat, num: nat): (r: seq<E>)
    requires dst + num <= |b| && src + num <= |b|
    ensures |r| == |b|
    ensures forall i {:trigger r[i]} :: 0 <= i < |b| ==>
      r[i] == if dst <= i < dst + num then b[i - dst + src] else b[i]
  {
    b[..dst] + b[src..src + num] + b[dst + num..]
  }

  /** Slide the head block to the end of the grown buffer. */
  function ShiftHead<E>(s: Queue<E>, m: nat): Queue<E>
    requires Wellformed(s) && s.n <= m <= |s.buff|
  {
    s.(n := m, buff := Move(s.buff, m - s.n + s.head, s.head, s.n - s.head),
       head := m - s.n + s.head, rHead := m - s.n + s.head)
  }

  /** Append the front tail block behind the old end. */
  function AppendFront<E>(s: Queue<E>, m: nat): Queue<E>
    requires Wellformed(s) && s.n + s.rTail <= |s.buff| && s.rTail <= s.n
  {
    s.(n := m, buff := Move(s.buff, s.n, 0, s.rTail), tail := s.n + s.rTail, rTail := s.n + s.rTail)
  }

  /** compactQueue with the pop lock held, for a granted size `m`. */
  function Compact<E>(s: Queue<E>, m: nat): Queue<E>
    requires Wellformed(s) && s.n <= m <= |s.buff|
  {
    if Resizable(s) then s.(n := m)
    else if m < s.n + CompactMove(s) then
      if m > s.n then ShiftHead(s, m) else s.(n := m)
    else if s.rTail <= s.n - s.head then
      AppendFront(s, m)
    else ShiftHead(s, m)
  }

  lemma GrantGrows(cfg: Config, n: nat, num: nat, m: nat)
    requires ConfigOk(cfg) && n <= cfg.sizeMax && Sized(cfg, CalcGrown(cfg, n, num), m)
    ensures n <= m && (m < cfg.sizeMax ==> m > n + num)
  {
    CalcGrownEnough(cfg, n, num);
  }

  function Reserve<E>(s: Queue<E>, r: PushReads): Queue<E>
    requires Wellformed(s) && r.rTail < r.numElm
  {
    var newIndex := Advance(r.numElm, r.rTail, r.num);
    s.(pusher := Idle, rTail := newIndex, rTailCount := s.rTailCount + r.num,
       pushes := s.pushes + [Held(s.rTailCount, r.num, r.num, Windows(r.numElm, r.rTail, r.num), newIndex)])
  }

  function ReservePeek<E>(s: Queue<E>, p: PopReads): Queue<E>
    requires Wellformed(s)
  {
    var newIndex := Advance(p.numElm, p.rHead, p.num);
    s.(popper := Reserved, rHead := newIndex, rHeadCount := s.rHeadCount + p.num,
       pops := s.pops + [Held(s.rHeadCount, p.num, p.peek, PopPieces(p.numElm, p.rHead, p.peek), newIndex)])
  }

  /** The window of a pop.  If ReservedHead was moved beyond the NumElm read, the code's first piece
      has a negative length, which it makes up for in the second: the same cells as here. */
  function PopPieces(numelm: nat, rHead: nat, peek: nat): (Window, Window) {
    if rHead < numelm then Windows(numelm, rHead, peek) else (Window(rHead, 0), Window(rHead - numelm, peek))
  }

  function Contents<E>(s: Queue<E>, r: Held): (c: seq<E>)
    requires WindowInside(r, |s.buff|)
    ensures |c| == r.span
  {
    seq(r.span, i requires 0 <= i < r.span => s.buff[CellAt(r.win, i)])
  }

  function Apply<E>(s: Queue<E>, a: Action<E>): Queue<E>
    requires Wellformed(s) && Enabled(s, a)
  {
    match a
    case ReadForPush(num) => s.(pusher := Checking(PushReads(num, s.numElm, s.rTail, s.head)))
    case ReservePush => if Roomy(s.pusher.seen) then Reserve(s, s.pusher.seen) else s.(pusher := Idle)
    case GrowQueue(m) => s.(n := m, numElm := m, pusher := Rechecking(s.pusher.seen.(numElm := m)))
    case SeeWrapped => s.(pusher := Wrapped(s.pusher.seen))
    case GoCompact => s.(pusher := Compacting(s.pusher.seen))
    case SkipGrow => s.(pusher := Rechecking(s.pusher.seen))
    case CompactQueue(m) =>
      if s.tail == s.rTail && PopLockFree(s) then
        GrantGrows(s.cfg, s.n, s.pusher.seen.num + CompactMove(s), m);
        Compact(s, m).(pusher := Storing(s.pusher.seen, m))
      else s.(pusher := Rechecking(s.pusher.seen))
    case StoreSize =>
      s.(numElm := s.pusher.size, pusher := Rechecking(s.pusher.seen.(numElm := s.pusher.size)))
    case WriteCell(k, i, v) => s.(buff := s.buff[CellAt(s.pushes[k].win, i) := v])
    case CommitPush =>
      var r := s.pushes[s.pushDone];
      s.(tail := r.newIndex, tailCount := s.tailCount + r.num, pushDone := s.pushDone + 1, log := s.log + Contents(s, r))
    case ReadSize(peek, num) => s.(popper := Sizing(peek, num, s.numElm))
    case ReadForPop =>
      var p := s.popper;
      s.(popper := Reading(PopReads(p.peekNum, p.popNum, p.read, s.rHead, s.tail)))
    case ReservePop =>
      var p := s.popper.pop;
      if HaveEnoughData(p.numElm, p.rHead, p.tail, p.peek) then ReservePeek(s, p) else s.(popper := Outside)
    case ShrinkQueue(m, _) => s.(n := m, numElm := m, popper := Outside)
    case LeavePop => s.(popper := Outside)
    case CommitPop =>
      var r := s.pops[s.popDone];
      s.(head := r.newIndex, headCount := s.headCount + r.num, popDone := s.popDone + 1)
  }

  // ---------------------------------------------------------------------------------------------
  // The invariant
  // ---------------------------------------------------------------------------------------------

  /** The index of counter `c`: its distance from `head`, wrapped around at most once. */
  function Cell<E>(s: Queue<E>, c: nat): int {
    if s.head + c - s.headCount >= s.n then s.head + c - s.headCount - s.n else s.head + c - s.headCount
  }

  ghost predicate Counters<E>(s: Queue<E>) {
    && s.headCount <= s.rHeadCount <= s.tailCount <= s.rTailCount < s.headCount + s.n
    && s.rHead == Cell(s, s.rHeadCount) && s.tail == Cell(s, s.tailCount) && s.rTail == Cell(s, s.rTailCount)
  }

  function StartOf(rs: seq<Held>, k: nat, end: nat): nat {
    if k < |rs| then rs[k].start else end
  }

  ghost predicate EndsAtNext(rs: seq<Held>, k: nat, end: nat)
    requires k < |rs|
  {
    rs[k].num >= 1 && rs[k].start + rs[k].num == StartOf(rs, k + 1, end)
  }

  /** The reservations from `done` on are back to back between the counters `front` and `end`. */
  ghost predicate Chain(rs: seq<Held>, done: nat, front: nat, end: nat) {
    && done <= |rs| && StartOf(rs, done, end) == front
    && (forall k :: done <= k < |rs| ==> EndsAtNext(rs, k, end))
  }

  /** A window handed out, perhaps under another NumElm, still denotes the cells of its counters. */
  ghost predicate WindowOk<E>(s: Queue<E>, r: Held) {
    && (forall i :: 0 <= i < r.span ==> CellAt(r.win, i) == Cell(s, r.start + i))
    && r.newIndex == Cell(s, r.start + r.num)
  }

  ghost predicate PushOk<E>(s: Queue<E>, k: nat)
    requires k < |s.pushes|
  {
    WindowOk(s, s.pushes[k])
  }

  ghost predicate PopOk<E>(s: Queue<E>, k: nat)
    requires k < |s.pops|
  {
    WindowOk(s, s.pops[k]) && s.pops[k].num <= s.pops[k].span && s.pops[k].start + s.pops[k].span <= s.tailCount
  }

  ghost predicate Logged<E>(s: Queue<E>) {
    && |s.log| == s.tailCount
    && forall c :: s.headCount <= c < s.tailCount ==> CellLogged(s, c)
  }

  ghost predicate CellLogged<E>(s: Queue<E>, c: nat) {
    0 <= Cell(s, c) < |s.buff| && c < |s.log| && s.buff[Cell(s, c)] == s.log[c]
  }

  /** `head` has moved from `h` by less than the elements that were then in the queue. */
  ghost predicate HeadSeen<E>(s: Queue<E>, h: nat) {
    if h <= s.rTail then h <= s.head <= s.rTail else h < s.n && (h <= s.head || s.head <= s.rTail)
  }

  ghost predicate PusherOk<E>(s: Queue<E>) {
    match s.pusher
    case Idle => true
    case Checking(r) => r.num >= 1 && r.numElm == s.n && r.rTail == s.rTail && HeadSeen(s, r.head)
    case Wrapped(r) =>
      r.num >= 1 && r.numElm == s.n && r.rTail == s.rTail && HeadSeen(s, r.head) && !Roomy(r) && r.rTail < r.head
    case Compacting(r) =>
      r.num >= 1 && r.numElm == s.n && r.rTail == s.rTail && HeadSeen(s, r.head) && !Roomy(r) && r.rTail < r.head
    case Storing(r, _) => r.num >= 1 && !Roomy(r) && r.rTail < r.head
    case Rechecking(r) =>
      r.num >= 1 && (Roomy(r) ==> r.numElm == s.n && r.rTail == s.rTail && HeadSeen(s, r.head))
  }

  ghost predicate PopperOk<E>(s: Queue<E>) {
    match s.popper
    case Sizing(peek, num, read) => 1 <= num <= peek && 0 < read <= s.n
    case Reading(p) =>
      && 1 <= p.num <= p.peek && p.rHead == s.rHead && 0 < p.numElm <= s.n
      && (if p.rHead > p.tail then p.tail <= s.tail < s.rHead
          else if p.rHead < p.tail then p.tail < s.n && (p.tail <= s.tail || s.tail < s.rHead)
          else true)
    case _ => true
  }

  ghost predicate Inv<E>(s: Queue<E>) {
    && Wellformed(s) && Counters(s) && Logged(s) && PusherOk(s) && PopperOk(s)
    && Chain(s.pushes, s.pushDone, s.tailCount, s.rTailCount)
    && Chain(s.pops, s.popDone, s.headCount, s.rHeadCount)
    && (forall k :: s.pushDone <= k < |s.pushes| ==> PushOk(s, k))
    && (forall k :: s.popDone <= k < |s.pops| ==> PopOk(s, k))
  }

  lemma InitInv<E>(cfg: Config, buff: seq<E>)
    requires ConfigOk(cfg) && |buff| == cfg.sizeMax
    ensures Inv(Init(cfg, buff))
  {
  }

  // ---------------------------------------------------------------------------------------------
  // Chains and cells
  // ---------------------------------------------------------------------------------------------

  lemma {:induction false} ChainOrder(rs: seq<Held>, done: nat, front: nat, end: nat, j: nat, k: nat)
    requires Chain(rs, done, front, end) && done <= j <= k <= |rs|
    ensures StartOf(rs, j, end) + (k - j) <= StartOf(rs, k, end)
    decreases k - j
  {
    if j < k {
      assert EndsAtNext(rs, j, end);
      ChainOrder(rs, done, front, end, j + 1, k);
    }
  }

  /** An outstanding reservation lies between the chain's ends. */
  lemma InChain(rs: seq<Held>, done: nat, front: nat, end: nat, k: nat)
    requires Chain(rs, done, front, end) && done <= k < |rs|
    ensures front <= rs[k].start && rs[k].num >= 1 && rs[k].start + rs[k].num <= end
    ensures k > done ==> rs[done].start + rs[done].num <= rs[k].start
  {
    ChainOrder(rs, done, front, end, done, k);
    ChainOrder(rs, done, front, end, k + 1, |rs|);
    assert EndsAtNext(rs, k, end);
    if k > done {
      assert EndsAtNext(rs, done, end);
      ChainOrder(rs, done, front, end, done + 1, k);
    }
  }

  lemma ChainAppend(rs: seq<Held>, done: nat, front: nat, end: nat, r: Held)
    requires Chain(rs, done, front, end) && r.start == end && r.num >= 1
    ensures Chain(rs + [r], done, front, end + r.num)
  {
    var rs', end' := rs + [r], end + r.num;
    forall k | done <= k < |rs'|
      ensures EndsAtNext(rs', k, end')
    {
      if k < |rs| {
        assert EndsAtNext(rs, k, end);
      }
    }
  }

  lemma ChainCommit(rs: seq<Held>, done: nat, front: nat, end: nat)
    requires Chain(rs, done, front, end) && done < |rs|
    ensures rs[done].start == front && rs[done].num >= 1 && front + rs[done].num <= end
    ensures Chain(rs, done + 1, front + rs[done].num, end)
  {
    InChain(rs, done, front, end, done);
    assert EndsAtNext(rs, done, end);
  }

  /** An empty chain is the only one whose ends meet. */
  lemma ChainEmpty(rs: seq<Held>, done: nat, front: nat, end: nat)
    requires Chain(rs, done, front, end)
    ensures front <= end && (front == end <==> done == |rs|)
  {
    ChainOrder(rs, done, front, end, done, |rs|);
  }

  /** `head` moves, or NumElm changes, without moving any live cell. */
  ghost predicate SameCells<E>(s: Queue<E>, s': Queue<E>) {
    forall c: nat :: s'.headCount <= c <= s.rTailCount ==> Cell(s', c) == Cell(s, c)
  }

  lemma WindowKept<E>(s: Queue<E>, s': Queue<E>, r: Held)
    requires WindowOk(s, r) && SameCells(s, s')
    requires s'.headCount <= r.start && r.start + r.span <= s.rTailCount && r.start + r.num <= s.rTailCount
    ensures WindowOk(s', r)
  {
  }

  lemma OldestPush<E>(s: Queue<E>)
    requires Inv(s) && s.pushDone < |s.pushes|
    ensures ChainOk(s.pushes[s.pushDone], s.tailCount, s.rTailCount) && PushOk(s, s.pushDone)
  {
    ChainCommit(s.pushes, s.pushDone, s.tailCount, s.rTailCount);
  }

  predicate ChainOk(r: Held, front: nat, end: nat) {
    r.start == front && r.num >= 1 && front + r.num <= end
  }

  lemma OldestPop<E>(s: Queue<E>)
    requires Inv(s) && s.popDone < |s.pops|
    ensures ChainOk(s.pops[s.popDone], s.headCount, s.rHeadCount) && PopOk(s, s.popDone)
  {
    ChainCommit(s.pops, s.popDone, s.headCount, s.rHeadCount);
  }

  /** Where each outstanding reservation lies. */
  lemma PushAt<E>(s: Queue<E>, k: nat)
    requires Inv(s) && s.pushDone <= k < |s.pushes|
    ensures PushOk(s, k) && s.tailCount <= s.pushes[k].start && s.pushes[k].start + s.pushes[k].num <= s.rTailCount
    ensures s.pushes[k].span == s.pushes[k].num && WindowInside(s.pushes[k], |s.buff|)
  {
    InChain(s.pushes, s.pushDone, s.tailCount, s.rTailCount, k);
  }

  lemma PopAt<E>(s: Queue<E>, k: nat)
    requires Inv(s) && s.popDone <= k < |s.pops|
    ensures PopOk(s, k) && s.headCount <= s.pops[k].start && s.pops[k].start + s.pops[k].num <= s.rHeadCount
    ensures k > s.popDone ==> s.headCount + s.pops[s.popDone].num <= s.pops[k].start
  {
    ChainCommit(s.pops, s.popDone, s.headCount, s.rHeadCount);
    InChain(s.pops, s.popDone, s.headCount, s.rHeadCount, k);
  }

  // ---------------------------------------------------------------------------------------------
  // Every step keeps the invariant
  // ---------------------------------------------------------------------------------------------

  /** The room check against a possibly stale `head` is safe: the window fits the free cells now. */
  lemma RoomNow<E>(s: Queue<E>, h: nat, num: nat)
    requires Wellformed(s) && Counters(s) && HeadSeen(s, h) && HaveEnoughRoom(s.n, s.rTail, h, num)
    ensures s.rTailCount + num < s.headCount + s.n
  {
  }

  lemma PushWindow<E>(s: Queue<E>, num: nat)
    requires Wellformed(s) && Counters(s) && s.rTailCount + num < s.headCount + s.n
    ensures forall i :: 0 <= i < num ==> CellAt(Windows(s.n, s.rTail, num), i) == Cell(s, s.rTailCount + i)
    ensures Advance(s.n, s.rTail, num) == Cell(s, s.rTailCount + num)
  {
  }

  /** A pop with an overtaken NumElm whose window or whose new head goes around that old end. */
  predicate CrossesOldEnd(p: PopReads, n: nat) {
    p.numElm < n && (p.rHead + p.num >= p.numElm || p.rHead + p.peek > p.numElm)
  }

  /** The data check against a possibly stale `tail` and NumElm is safe: the window holds committed
      elements.  Its pieces and the new head are the right ones under the NumElm of now if and only
      if the pop does not go around the end of an overtaken NumElm. */
  lemma PopWindow<E>(s: Queue<E>)
    requires Wellformed(s) && Counters(s) && PopperOk(s) && s.popper.Reading?
    requires var p := s.popper.pop; HaveEnoughData(p.numElm, p.rHead, p.tail, p.peek)
    ensures var p := s.popper.pop;
      && s.rHeadCount + p.peek <= s.tailCount
      && (!CrossesOldEnd(p, s.n) <==>
            && (forall i :: 0 <= i < p.peek ==> CellAt(PopPieces(p.numElm, p.rHead, p.peek), i) == Cell(s, s.rHeadCount + i))
            && Advance(p.numElm, p.rHead, p.num) == Cell(s, s.rHeadCount + p.num))
  {
    var p := s.popper.pop;
    if CrossesOldEnd(p, s.n) && p.rHead + p.num < p.numElm {
      assert CellAt(PopPieces(p.numElm, p.rHead, p.peek), p.numElm - p.rHead) == 0;
    }
  }

  /** What a step that moves no live cell keeps about one reservation or one cell. */
  lemma PushKept<E>(s: Queue<E>, s': Queue<E>, k: nat)
    requires Inv(s) && SameCells(s, s') && s'.headCount <= s.tailCount
    requires s.pushDone <= k < |s.pushes| && k < |s'.pushes| && s'.pushes[k] == s.pushes[k]
    ensures PushOk(s', k)
  {
    hide Inv, Cell;
    PushAt(s, k);
    WindowKept(s, s', s.pushes[k]);
  }

  lemma PopKept<E>(s: Queue<E>, s': Queue<E>, k: nat)
    requires Inv(s) && SameCells(s, s') && s.tailCount <= s'.tailCount && s.tailCount <= s.rTailCount
    requires s.popDone <= k < |s.pops| && k < |s'.pops| && s'.pops[k] == s.pops[k] && s'.headCount <= s.pops[k].start
    ensures PopOk(s', k)
  {
    hide Inv, Cell;
    PopAt(s, k);
    WindowKept(s, s', s.pops[k]);
  }

  lemma LoggedKept<E>(s: Queue<E>, s': Queue<E>, c: nat)
    requires Inv(s) && SameCells(s, s') && s'.headCount <= c && s.headCount <= c < s.tailCount <= s.rTailCount
    requires s'.buff == s.buff && |s'.log| >= |s.log| && s'.log[c] == s.log[c]
    ensures CellLogged(s', c)
  {
    hide Wellformed, Counters, PushOk, PopOk, Cell, Chain, PusherOk, PopperOk;
    assert CellLogged(s, c);
  }

  lemma Facts<E>(s: Queue<E>)
    requires Inv(s)
    ensures Wellformed(s) && Counters(s) && PusherOk(s) && PopperOk(s) && |s.log| == s.tailCount
    ensures s.tail < s.n && s.rTail < s.n
    ensures Chain(s.pushes, s.pushDone, s.tailCount, s.rTailCount) && Chain(s.pops, s.popDone, s.headCount, s.rHeadCount)
  {
  }

  /** The invariant from its parts, for a step that moves no live cell and writes none. */
  lemma Assemble<E>(s: Queue<E>, s': Queue<E>)
    requires Inv(s) && SameCells(s, s')
    requires Wellformed(s') && Counters(s') && PusherOk(s') && PopperOk(s') && |s'.log| == s'.tailCount
    requires Chain(s'.pushes, s'.pushDone, s'.tailCount, s'.rTailCount)
    requires Chain(s'.pops, s'.popDone, s'.headCount, s'.rHeadCount)
    requires s.headCount <= s'.headCount <= s.tailCount <= s'.tailCount <= s.rTailCount
    requires s.pushDone <= s'.pushDone && s.pushes <= s'.pushes && s.popDone <= s'.popDone && s.pops <= s'.pops
    requires s'.buff == s.buff || Logged(s')
    requires forall c :: s.tailCount <= c < s'.tailCount ==> CellLogged(s', c)
    requires s.log <= s'.log
    requires forall k :: |s.pushes| <= k < |s'.pushes| ==> PushOk(s', k)
    requires forall k :: |s.pops| <= k < |s'.pops| ==> PopOk(s', k)
    requires forall k :: s'.popDone <= k < |s.pops| ==> s'.headCount <= s.pops[k].start
    ensures Inv(s')
  {
    hide Wellformed, Counters, PushOk, PopOk, CellLogged, Chain, PusherOk, PopperOk, SameCells;
    assert |s.log| == s.tailCount;
    forall k | s'.pushDone <= k < |s'.pushes|
      ensures PushOk(s', k)
    {
      if k < |s.pushes| {
        PushKept(s, s', k);
      }
    }
    forall k | s'.popDone <= k < |s'.pops|
      ensures PopOk(s', k)
    {
      if k < |s.pops| {
        PopKept(s, s', k);
      }
    }
    forall c | s'.headCount <= c < s'.tailCount
      ensures CellLogged(s', c)
    {
      if c < s.tailCount && s'.buff == s.buff {
        LoggedKept(s, s', c);
      }
    }
  }

  /** Pops not yet committed start at or behind `head`, and behind the oldest one's end. */
  lemma PopStarts<E>(s: Queue<E>)
    requires Inv(s)
    ensures forall k :: s.popDone <= k < |s.pops| ==> s.headCount <= s.pops[k].start
    ensures s.popDone < |s.pops| ==>
      forall k :: s.popDone < k < |s.pops| ==> s.headCount + s.pops[s.popDone].num <= s.pops[k].start
  {
    hide Inv, PopOk;
    forall k | s.popDone <= k < |s.pops|
      ensures s.headCount <= s.pops[k].start
      ensures k > s.popDone ==> s.headCount + s.pops[s.popDone].num <= s.pops[k].start
    {
      PopAt(s, k);
    }
  }

  lemma ReserveShape<E>(s: Queue<E>)
    requires Inv(s) && !s.pusher.Idle? && Roomy(s.pusher.seen) && (s.pusher.Checking? || s.pusher.Rechecking?)
    ensures var s' := Reserve(s, s.pusher.seen);
      s'.rTail < s.n && Counters(s') && PopperOk(s') && SameCells(s, s') && PushOk(s', |s.pushes|) &&
      s.headCount <= s.tailCount <= s.rTailCount
  {
    hide Inv, Chain, Logged, WindowInside, PopperOk, PushOk, Windows, HeadSeen, Advance, HaveEnoughRoom;
    Facts(s);
    RoomNow(s, s.pusher.seen.head, s.pusher.seen.num);
    PushWindow(s, s.pusher.seen.num);
    ReservedPush(s);
    PopperSame(s, Reserve(s, s.pusher.seen));
  }

  lemma ReservedPush<E>(s: Queue<E>)
    requires Wellformed(s) && !s.pusher.Idle?
    requires s.pusher.seen.rTail == s.rTail < s.n && s.pusher.seen.numElm == s.n
    requires forall i :: 0 <= i < s.pusher.seen.num ==>
      CellAt(Windows(s.n, s.rTail, s.pusher.seen.num), i) == Cell(s, s.rTailCount + i)
    requires Advance(s.n, s.rTail, s.pusher.seen.num) == Cell(s, s.rTailCount + s.pusher.seen.num)
    ensures PushOk(Reserve(s, s.pusher.seen), |s.pushes|)
  {
    hide Wellformed, Windows, Advance;
    var s' := Reserve(s, s.pusher.seen);
    assert forall c :: Cell(s', c) == Cell(s, c);
  }

  /** A popper's reads stay good while the indices it depends on stay. */
  lemma PopperSame<E>(s: Queue<E>, s': Queue<E>)
    requires PopperOk(s) && s'.popper == s.popper && s'.rHead == s.rHead && s'.tail == s.tail && s'.n == s.n
    ensures PopperOk(s')
  {
  }

  lemma ReserveWellformed<E>(s: Queue<E>)
    requires Inv(s) && !s.pusher.Idle? && Roomy(s.pusher.seen) && (s.pusher.Checking? || s.pusher.Rechecking?)
    ensures Wellformed(Reserve(s, s.pusher.seen))
  {
    hide Inv, Chain, Logged, Roomy, Counters, PopperOk, Advance;
    Facts(s);
    ReserveShape(s);
  }

  lemma ReserveInv<E>(s: Queue<E>)
    requires Inv(s) && !s.pusher.Idle? && Roomy(s.pusher.seen) && (s.pusher.Checking? || s.pusher.Rechecking?)
    ensures Inv(Reserve(s, s.pusher.seen))
  {
    hide Inv, Chain, Logged, Wellformed, Counters, PopperOk, SameCells, PopOk, PushOk, Advance, Roomy;
    Facts(s);
    ReserveShape(s);
    ReserveWellformed(s);
    var s' := Reserve(s, s.pusher.seen);
    ChainAppend(s.pushes, s.pushDone, s.tailCount, s.rTailCount, s'.pushes[|s.pushes|]);
    PopStarts(s);
    Assemble(s, s');
  }

  lemma CommitPushShape<E>(s: Queue<E>, s': Queue<E>)
    requires Inv(s) && s.pushDone < |s.pushes| && s' == Apply(s, CommitPush)
    ensures Counters(s') && PopperOk(s') && PusherOk(s') && SameCells(s, s') && s'.tail < s.n
    ensures s.headCount <= s.tailCount <= s'.tailCount <= s.rTailCount
  {
    hide Inv, Chain, Logged, WindowInside, PusherOk, Contents;
    Facts(s);
    OldestPush(s);
    PusherSame(s, s');
  }

  lemma CommitPushLogs<E>(s: Queue<E>, s': Queue<E>, c: nat)
    requires Inv(s) && s.pushDone < |s.pushes| && s' == Apply(s, CommitPush) && s.tailCount <= c < s'.tailCount
    ensures CellLogged(s', c)
  {
    hide Inv, Wellformed, Counters, Chain, PusherOk, PopperOk;
    Facts(s);
    PushAt(s, s.pushDone);
    OldestPush(s);
    var r := s.pushes[s.pushDone];
    assert CellAt(r.win, c - s.tailCount) == Cell(s, c) == Cell(s', c);
    assert Contents(s, r)[c - s.tailCount] == s'.log[c];
  }

  lemma CommitPushInv<E>(s: Queue<E>)
    requires Inv(s) && s.pushDone < |s.pushes|
    ensures Inv(Apply(s, CommitPush))
  {
    hide Inv, Chain, Logged, Counters, PopperOk, PusherOk, SameCells, PopOk, PushOk;
    Facts(s);
    var s' := Apply(s, CommitPush);
    CommitPushShape(s, s');
    OldestPush(s);
    ChainCommit(s.pushes, s.pushDone, s.tailCount, s.rTailCount);
    PopStarts(s);
    forall c | s.tailCount <= c < s'.tailCount
      ensures CellLogged(s', c)
    {
      CommitPushLogs(s, s', c);
    }
    Assemble(s, s');
  }

  lemma ReservePeekShape<E>(s: Queue<E>)
    requires Inv(s) && s.popper.Reading?
    requires var p := s.popper.pop; HaveEnoughData(p.numElm, p.rHead, p.tail, p.peek) && !CrossesOldEnd(p, s.n)
    ensures var s' := ReservePeek(s, s.popper.pop);
      && s'.rHead < s.n && Counters(s') && SameCells(s, s') && PopOk(s', |s.pops|) && PusherOk(s')
      && s.headCount <= s.tailCount <= s.rTailCount && s'.pops[|s.pops|].num >= 1
  {
    hide Inv, Chain, Logged, WindowInside, PusherOk, PopPieces, Advance, HaveEnoughData, CrossesOldEnd, PopOk;
    Facts(s);
    PopWindow(s);
    ReservedPop(s);
    PusherSame(s, ReservePeek(s, s.popper.pop));
  }

  lemma ReservedPop<E>(s: Queue<E>)
    requires Wellformed(s) && s.popper.Reading?
    requires s.popper.pop.num <= s.popper.pop.peek && s.rHeadCount + s.popper.pop.peek <= s.tailCount
    requires forall i :: 0 <= i < s.popper.pop.peek ==>
      CellAt(PopPieces(s.popper.pop.numElm, s.popper.pop.rHead, s.popper.pop.peek), i) == Cell(s, s.rHeadCount + i)
    requires Advance(s.popper.pop.numElm, s.popper.pop.rHead, s.popper.pop.num) == Cell(s, s.rHeadCount + s.popper.pop.num)
    ensures PopOk(ReservePeek(s, s.popper.pop), |s.pops|)
  {
    hide Wellformed, PopPieces, Advance;
    var s' := ReservePeek(s, s.popper.pop);
    assert forall c :: Cell(s', c) == Cell(s, c);
  }

  lemma PusherSame<E>(s: Queue<E>, s': Queue<E>)
    requires PusherOk(s) && s'.pusher == s.pusher && s'.head == s.head && s'.rTail == s.rTail && s'.n == s.n
    ensures PusherOk(s')
  {
  }

  lemma ReservePeekWellformed<E>(s: Queue<E>)
    requires Inv(s) && s.popper.Reading?
    requires var p := s.popper.pop; HaveEnoughData(p.numElm, p.rHead, p.tail, p.peek) && !CrossesOldEnd(p, s.n)
    ensures Wellformed(ReservePeek(s, s.popper.pop))
  {
    hide Inv, Chain, Logged, PusherOk, PopperOk, Advance, PopPieces, HaveEnoughData, CrossesOldEnd;
    Facts(s);
    ReservePeekShape(s);
    var p := s.popper.pop;
    var r := ReservePeek(s, p).pops[|s.pops|];
    forall i | 0 <= i < r.span
      ensures CellAt(r.win, i) < |s.buff|
    {
      assert CellAt(r.win, i) == Cell(s, s.rHeadCount + i);
    }
  }

  lemma ReservePeekInv<E>(s: Queue<E>)
    requires Inv(s) && s.popper.Reading?
    requires var p := s.popper.pop; HaveEnoughData(p.numElm, p.rHead, p.tail, p.peek) && !CrossesOldEnd(p, s.n)
    ensures Inv(ReservePeek(s, s.popper.pop))
  {
    hide Inv, Chain, Logged, Wellformed, Counters, PusherOk, SameCells, PopOk, PushOk, Advance, HaveEnoughData, CrossesOldEnd;
    Facts(s);
    ReservePeekShape(s);
    ReservePeekWellformed(s);
    var s' := ReservePeek(s, s.popper.pop);
    ChainAppend(s.pops, s.popDone, s.headCount, s.rHeadCount, s'.pops[|s.pops|]);
    PopStarts(s);
    Assemble(s, s');
  }

  lemma CommitPopShape<E>(s: Queue<E>, s': Queue<E>)
    requires Inv(s) && s.popDone < |s.pops| && s' == Apply(s, CommitPop)
    ensures Counters(s') && PopperOk(s') && PusherOk(s') && SameCells(s, s') && s'.head < s.n
    ensures s.headCount <= s'.headCount <= s.tailCount <= s.rTailCount
  {
    hide Inv, Chain, Logged, WindowInside, PopperOk, PusherOk, PopOk;
    Facts(s);
    OldestPop(s);
    HeadMoves(s, s');
    PopperSame(s, s');
    PusherKept(s, s');
  }

  lemma HeadMoves<E>(s: Queue<E>, s': Queue<E>)
    requires Wellformed(s) && Counters(s) && s.popDone < |s.pops| && s' == Apply(s, CommitPop)
    requires ChainOk(s.pops[s.popDone], s.headCount, s.rHeadCount) && PopOk(s, s.popDone)
    ensures Counters(s') && SameCells(s, s') && s'.head < s.n
    ensures s.headCount <= s'.headCount <= s.tailCount <= s.rTailCount
    ensures s'.head == Cell(s, s'.headCount)
  {
    hide WindowInside;
  }

  /** `head` moves on to the cell of a later counter, not beyond the reserved tail. */
  lemma PusherKept<E>(s: Queue<E>, s': Queue<E>)
    requires Wellformed(s) && Counters(s) && PusherOk(s)
    requires s' == s.(head := s'.head, headCount := s'.headCount, popDone := s'.popDone)
    requires s.headCount <= s'.headCount <= s.rTailCount && s'.head == Cell(s, s'.headCount)
    ensures PusherOk(s')
  {
    hide WindowInside;
  }

  lemma CommitPopInv<E>(s: Queue<E>)
    requires Inv(s) && s.popDone < |s.pops|
    ensures Inv(Apply(s, CommitPop))
  {
    hide Inv, Chain, Logged, Counters, PopperOk, PusherOk, SameCells, PopOk, PushOk;
    Facts(s);
    var s' := Apply(s, CommitPop);
    CommitPopShape(s, s');
    OldestPop(s);
    ChainCommit(s.pops, s.popDone, s.headCount, s.rHeadCount);
    PopStarts(s);
    Assemble(s, s');
  }

  /** What the code asserts after every resize of a queue that is not wrapped around. */
  lemma Unwrapped<E>(s: Queue<E>)
    requires Inv(s) && Resizable(s)
    ensures s.head <= s.rHead <= s.tail <= s.rTail
  {
    Facts(s);
    hide Inv, Chain, Logged, WindowInside;
  }

  /** A queue that is not wrapped around may get any size beyond its reserved tail. */
  lemma ResizeShape<E>(s: Queue<E>, s': Queue<E>)
    requires Inv(s) && Resizable(s) && s.rTail < s'.n && s.cfg.sizeMin <= s'.n <= s.cfg.sizeMax
    requires s' == s.(n := s'.n, numElm := s'.numElm, pusher := s'.pusher, popper := s'.popper)
    ensures Counters(s') && SameCells(s, s')
    ensures s.head < s'.n && s.rHead < s'.n && s.tail < s'.n
    ensures s.headCount <= s.tailCount <= s.rTailCount
  {
    Facts(s);
    hide Inv, Chain, Logged, WindowInside;
  }

  lemma ResizeInv<E>(s: Queue<E>, s': Queue<E>)
    requires Inv(s) && Resizable(s) && s.rTail < s'.n && s.cfg.sizeMin <= s'.n <= s.cfg.sizeMax
    requires s' == s.(n := s'.n, numElm := s'.numElm, pusher := s'.pusher, popper := s'.popper)
    requires PusherOk(s') && PopperOk(s') && SizeKnown(s')
    requires !s'.pusher.Idle? ==> s'.pusher.seen.rTail < s'.pusher.seen.numElm
    ensures Inv(s')
  {
    hide Inv, Chain, Logged, Counters, PopperOk, PusherOk, SameCells, PopOk, PushOk;
    Facts(s);
    ResizeShape(s, s');
    PopStarts(s);
    Assemble(s, s');
  }

  lemma GrowInv<E>(s: Queue<E>, m: nat)
    requires Inv(s) && Enabled(s, GrowQueue(m))
    ensures Inv(Apply(s, GrowQueue(m)))
  {
    hide Inv, Chain, Logged, Cell;
    Facts(s);
    Unwrapped(s);
    GrantGrows(s.cfg, s.n, s.pusher.seen.num, m);
    ResizeInv(s, Apply(s, GrowQueue(m)));
  }

  /** When a shrink is required: the queue is not wrapped around and not of the size first asked for,
      the cells reserved or in use are at most the complement of the start ratio, and the size asked
      for is smaller by more than a page. */
  lemma ShrinkWhen<E>(s: Queue<E>)
    requires Inv(s)
    ensures s.n >= 2 && s.rTail < s.n && s.headCount <= s.rTailCount
    ensures RequireShrink(s, s.head) <==>
      && Resizable(s) && s.n != s.cfg.minNum
      && (s.rTailCount - s.headCount) as real <= (1.0 - s.cfg.shrinkStartRatio) * (s.n - 1) as real
      && ShrinkTo(s.cfg, s.n, s.rTail) < s.n - s.cfg.elementsPerPage
  {
    hide Inv, WindowInside;
    Facts(s);
    if Resizable(s) {
      Unwrapped(s);
      OccupiedShare(s.rTail - s.head, s.n - 1, s.cfg.shrinkStartRatio);
    }
  }

  lemma OccupiedShare(used: nat, size: nat, start: real)
    requires size > 0
    ensures !(1.0 - used as real / size as real < start) <==> used as real <= (1.0 - start) * size as real
  {
    var u, c := used as real, size as real;
    var share, rest := u / c, 1.0 - start;
    Scaled(rest, share, c);
    Quotient(u, c);
  }

  lemma Quotient(u: real, c: real)
    requires c > 0.0
    ensures (u / c) * c == u
  {
  }

  lemma Scaled(a: real, b: real, c: real)
    requires c > 0.0
    ensures a < b <==> a * c < b * c
  {
    assert (b - a) * c == b * c - a * c;
    if a < b {
      assert (b - a) * c > 0.0;
    } else {
      assert (a - b) * c >= 0.0;
    }
  }

  lemma ShrinkInv<E>(s: Queue<E>, m: nat, head: nat)
    requires Inv(s) && Enabled(s, ShrinkQueue(m, head))
    ensures Inv(Apply(s, ShrinkQueue(m, head))) && s.rTail < m
  {
    hide Inv, Chain, Logged, Cell;
    Facts(s);
    ResizeInv(s, Apply(s, ShrinkQueue(m, head)));
  }

  /** Writing into an outstanding push window touches no committed cell. */
  lemma WriteLogged<E>(s: Queue<E>, k: nat, i: nat, v: E, c: nat)
    requires Inv(s) && s.pushDone <= k < |s.pushes| && i < s.pushes[k].num && s.headCount <= c < s.tailCount
    ensures CellLogged(Apply(s, WriteCell(k, i, v)), c)
  {
    hide Inv, Chain, PusherOk, PopperOk, PopOk;
    Facts(s);
    PushAt(s, k);
    CommittedAt(s, c);
    assert CellAt(s.pushes[k].win, i) == Cell(s, s.pushes[k].start + i);
  }

  lemma CommittedAt<E>(s: Queue<E>, c: nat)
    requires Inv(s) && s.headCount <= c < s.tailCount
    ensures CellLogged(s, c)
  {
  }

  lemma WriteInv<E>(s: Queue<E>, k: nat, i: nat, v: E)
    requires Inv(s) && s.pushDone <= k < |s.pushes| && i < s.pushes[k].num
    ensures Inv(Apply(s, WriteCell(k, i, v)))
  {
    hide Inv, Chain, CellLogged, PushOk, PopOk;
    Facts(s);
    PushAt(s, k);
    var s' := Apply(s, WriteCell(k, i, v));
    forall c | s'.headCount <= c < s'.tailCount
      ensures CellLogged(s', c)
    {
      WriteLogged(s, k, i, v, c);
    }
    PopStarts(s);
    Assemble(s, s');
  }

  /** Steps that only note what was read, or leave a reserve section. */
  lemma NoteInv<E>(s: Queue<E>, s': Queue<E>)
    requires Inv(s) && s' == s.(numElm := s'.numElm, pusher := s'.pusher, popper := s'.popper)
    requires PusherOk(s') && PopperOk(s') && SizeKnown(s')
    requires !s'.pusher.Idle? ==> s'.pusher.seen.rTail < s'.pusher.seen.numElm
    ensures Inv(s')
  {
    hide Inv, Chain, Logged, CellLogged, PushOk, PopOk, PusherOk, PopperOk;
    Facts(s);
    PopStarts(s);
    Assemble(s, s');
  }

  // ---------------------------------------------------------------------------------------------
  // Compaction
  // ---------------------------------------------------------------------------------------------

  /** The one compaction that puts Tail out of range: the front block just fits behind the old end,
      because the buffer cannot grow beyond that. */
  predicate TailAtEnd<E>(s: Queue<E>, m: nat)
    requires Wellformed(s)
  {
    !Resizable(s) && s.rTail <= s.n - s.head && m == s.n + s.rTail
  }

  /** A compaction that really happens and puts Tail at its new size. */
  predicate Overruns<E>(s: Queue<E>, a: Action<E>)
    requires Wellformed(s) && Enabled(s, a)
  {
    a.CompactQueue? && s.tail == s.rTail && PopLockFree(s) && TailAtEnd(s, a.newSize)
  }

  /** With nothing outstanding, every index is `head` or `tail`. */
  lemma Quiet<E>(s: Queue<E>)
    requires Inv(s) && s.tail == s.rTail && PopLockFree(s)
    ensures s.pushDone == |s.pushes| && s.headCount == s.rHeadCount && s.tailCount == s.rTailCount && s.head == s.rHead
  {
    Facts(s);
    hide Inv, Logged, Wellformed;
    ChainEmpty(s.pops, s.popDone, s.headCount, s.rHeadCount);
    ChainEmpty(s.pushes, s.pushDone, s.tailCount, s.rTailCount);
  }

  lemma CompactShape<E>(s: Queue<E>, m: nat, p: Pusher)
    requires Inv(s) && s.tail == s.rTail && PopLockFree(s) && s.n <= m <= s.cfg.sizeMax && !TailAtEnd(s, m)
    ensures var s' := Compact(s, m).(pusher := p);
      Counters(s') && s'.head == s'.rHead < m && s'.tail == s'.rTail < m
  {
    Facts(s);
    Quiet(s);
    hide Inv, Logged, WindowInside, Move;
  }

  /** Compaction touches nothing but the indices, NumElm and the cells. */
  lemma CompactFrame<E>(s: Queue<E>, m: nat)
    requires Wellformed(s) && s.n <= m <= |s.buff|
    ensures var s' := Compact(s, m);
      && s' == s.(n := m, buff := s'.buff, head := s'.head, rHead := s'.rHead, tail := s'.tail, rTail := s'.rTail)
      && |s'.buff| == |s.buff|
  {
    hide Move, WindowInside;
  }

  /** Where each case of the compaction puts a live element. */
  lemma ShiftedAt<E>(s: Queue<E>, m: nat, c: nat, p: Pusher)
    requires Inv(s) && s.tail == s.rTail && PopLockFree(s) && s.n <= m <= s.cfg.sizeMax && !Resizable(s)
    requires s.headCount <= c < s.tailCount
    ensures CellLogged(ShiftHead(s, m).(pusher := p), c)
  {
    Facts(s);
    Quiet(s);
    LoggedValue(s, c);
    hide Inv, Logged, WindowInside, Chain;
  }

  lemma AppendedAt<E>(s: Queue<E>, m: nat, c: nat, p: Pusher)
    requires Inv(s) && s.tail == s.rTail && PopLockFree(s) && s.n + s.rTail <= m <= s.cfg.sizeMax
    requires !Resizable(s) && s.rTail <= s.n - s.head && s.headCount <= c < s.tailCount
    ensures CellLogged(AppendFront(s, m).(pusher := p), c)
  {
    Facts(s);
    Quiet(s);
    LoggedValue(s, c);
    hide Inv, Logged, WindowInside, Chain;
  }

  lemma ResizedAt<E>(s: Queue<E>, m: nat, c: nat, p: Pusher)
    requires Inv(s) && Resizable(s) && s.n <= m <= s.cfg.sizeMax && s.headCount <= c < s.tailCount
    ensures CellLogged(s.(n := m, pusher := p), c)
  {
    Facts(s);
    LoggedValue(s, c);
    ResizeShape(s, s.(n := m, pusher := p));
    hide Inv, Cell;
  }

  /** Every live element is found again at its counter's new cell, in all three cases. */
  lemma CompactLogged<E>(s: Queue<E>, m: nat, c: nat, p: Pusher)
    requires Inv(s) && s.tail == s.rTail && PopLockFree(s) && s.n <= m <= s.cfg.sizeMax
    requires s.headCount <= c < s.tailCount
    ensures CellLogged(Compact(s, m).(pusher := p), c)
  {
    hide Inv, Counters, CellLogged, WindowInside, AppendFront, ShiftHead;
    Facts(s);
    if Resizable(s) {
      ResizedAt(s, m, c, p);
    } else {
      ShiftedAt(s, m, c, p);
      Unmoved(s, c, p);
      if s.rTail <= s.n - s.head && s.n + s.rTail <= m {
        AppendedAt(s, m, c, p);
      }
    }
  }

  lemma Unmoved<E>(s: Queue<E>, c: nat, p: Pusher)
    requires Inv(s) && s.headCount <= c < s.tailCount
    ensures CellLogged(s.(pusher := p), c)
  {
    CommittedAt(s, c);
    hide Inv;
  }

  lemma CompactInv<E>(s: Queue<E>, m: nat)
    requires Inv(s) && Enabled(s, CompactQueue(m)) && !Overruns(s, CompactQueue(m))
    ensures Inv(Apply(s, CompactQueue(m)))
  {
    hide Inv, Chain, CellLogged, PushOk, PopOk, Compact, Cell, WindowInside, CalcGrown;
    Facts(s);
    var s' := Apply(s, CompactQueue(m));
    if s.tail == s.rTail && PopLockFree(s) {
      GrantGrows(s.cfg, s.n, s.pusher.seen.num + CompactMove(s), m);
      Quiet(s);
      CompactFrame(s, m);
      CompactShape(s, m, s'.pusher);
      forall c | s'.headCount <= c < s'.tailCount
        ensures CellLogged(s', c)
      {
        CompactLogged(s, m, c, s'.pusher);
      }
      Assembled(s');
    } else {
      NoteInv(s, s');
    }
  }

  lemma Assembled<E>(s: Queue<E>)
    requires Wellformed(s) && Counters(s) && Logged(s) && PusherOk(s) && PopperOk(s)
    requires s.pushDone == |s.pushes| && s.tailCount == s.rTailCount
    requires s.popDone == |s.pops| && s.headCount == s.rHeadCount
    ensures Inv(s)
  {
  }

  // ---------------------------------------------------------------------------------------------
  // Main results
  // ---------------------------------------------------------------------------------------------

  lemma OverrunBreaks<E>(s: Queue<E>, m: nat)
    requires Wellformed(s) && Enabled(s, CompactQueue(m)) && Overruns(s, CompactQueue(m))
    ensures Apply(s, CompactQueue(m)).tail == Apply(s, CompactQueue(m)).n
  {
    hide Move, WindowInside, CalcGrown;
    GrantGrows(s.cfg, s.n, s.pusher.seen.num + CompactMove(s), m);
  }

  lemma ReadInv<E>(s: Queue<E>, a: Action<E>)
    requires Inv(s) && Enabled(s, a)
    requires a.ReadForPush? || a.ReadSize? || a.ReadForPop? || a.SeeWrapped? || a.GoCompact? || a.SkipGrow? || a.LeavePop? || a.StoreSize?
    ensures Inv(Apply(s, a))
  {
    hide Inv, Chain, Logged, WindowInside;
    Facts(s);
    NoteInv(s, Apply(s, a));
  }

  lemma ReservePushInv<E>(s: Queue<E>)
    requires Inv(s) && Enabled(s, ReservePush)
    ensures Inv(Apply(s, ReservePush))
  {
    hide Inv, Chain, Logged, WindowInside, Roomy;
    Facts(s);
    if Roomy(s.pusher.seen) {
      ReserveInv(s);
    } else {
      NoteInv(s, s.(pusher := Idle));
    }
  }

  predicate Grants<E>(s: Queue<E>, a: Action<E>)
    requires Wellformed(s) && Enabled(s, a)
  {
    a.ReservePop? && var p := s.popper.pop; HaveEnoughData(p.numElm, p.rHead, p.tail, p.peek)
  }

  /** A granted pop that goes around the end of an overtaken NumElm: a larger size has come into
      force since it read NumElm, or had already when it read, and it takes the old end for the end
      of the queue. */
  predicate Strays<E>(s: Queue<E>, a: Action<E>)
    requires Wellformed(s) && Enabled(s, a)
  {
    Grants(s, a) && CrossesOldEnd(s.popper.pop, s.n)
  }

  /** After a stray pop the reserved head, or its window, is wrong under the NumElm of now. */
  lemma StrayBreaks<E>(s: Queue<E>)
    requires Inv(s) && Enabled(s, ReservePop) && Strays(s, ReservePop)
    ensures !Inv(Apply(s, ReservePop))
  {
    hide Inv, Chain, Logged, WindowInside, HaveEnoughData, CrossesOldEnd, PopPieces, PopperOk, PusherOk, Advance;
    Facts(s);
    PopperFacts(s);
    PopWindow(s);
    NewestPop(Apply(s, ReservePop));
    var s' := Apply(s, ReservePop);
    assert forall c :: Cell(s', c) == Cell(s, c);
  }

  lemma PopperFacts<E>(s: Queue<E>)
    requires PopperOk(s) && s.popper.Reading?
    ensures var p := s.popper.pop; 1 <= p.num <= p.peek && p.rHead == s.rHead
  {
  }

  lemma NewestPop<E>(s: Queue<E>)
    ensures Inv(s) && s.popDone < |s.pops| ==> WindowOk(s, s.pops[|s.pops| - 1]) && Counters(s)
  {
    if Inv(s) && s.popDone < |s.pops| {
      assert PopOk(s, |s.pops| - 1);
    }
  }

  lemma ReservePopInv<E>(s: Queue<E>)
    requires Inv(s) && Enabled(s, ReservePop)
    ensures Inv(Apply(s, ReservePop)) <==> !Strays(s, ReservePop)
  {
    hide Inv, Chain, Logged, WindowInside, HaveEnoughData, CrossesOldEnd;
    Facts(s);
    if Grants(s, ReservePop) {
      if Strays(s, ReservePop) {
        StrayBreaks(s);
      } else {
        ReservePeekInv(s);
      }
    } else {
      NoteInv(s, s.(popper := Outside));
    }
  }

  /** The two kinds of steps after which the queue is no longer sound. */
  predicate Breaks<E>(s: Queue<E>, a: Action<E>)
    requires Wellformed(s) && Enabled(s, a)
  {
    Overruns(s, a) || Strays(s, a)
  }

  /** Every step of every thread keeps the queue sound, except exactly the compaction that puts Tail
      at its new size, and the granted pop that goes around the end of an overtaken NumElm. */
  lemma StepInv<E>(s: Queue<E>, a: Action<E>)
    requires Inv(s) && Enabled(s, a)
    ensures Inv(Apply(s, a)) <==> !Breaks(s, a)
  {
    hide Inv, Wellformed, TailAtEnd, Compact, Reserve, ReservePeek, Contents, Roomy, CrossesOldEnd;
    Facts(s);
    match a
    case ReservePush => ReservePushInv(s);
    case GrowQueue(m) => GrowInv(s, m);
    case CompactQueue(m) =>
      if Overruns(s, a) {
        OverrunBreaks(s, m);
        TailBelow(Apply(s, a));
      } else {
        CompactInv(s, m);
      }
    case WriteCell(k, i, v) => WriteInv(s, k, i, v);
    case CommitPush => CommitPushInv(s);
    case ReservePop => ReservePopInv(s);
    case ShrinkQueue(m, head) => ShrinkInv(s, m, head);
    case CommitPop => CommitPopInv(s);
    case _ => ReadInv(s, a);
  }

  lemma TailBelow<E>(s: Queue<E>)
    ensures Inv(s) ==> s.tail < s.n
  {
  }

  /** When that happens: the buffer cannot grow beyond the end of the appended block.  The size the
      buffer manager grants does not matter. */
  lemma OverrunExactly<E>(s: Queue<E>, m: nat)
    requires Wellformed(s) && Enabled(s, CompactQueue(m)) && s.tail == s.rTail && PopLockFree(s)
    ensures Overruns(s, CompactQueue(m)) <==>
      s.rTail < s.head && s.rTail <= s.n - s.head && s.cfg.sizeMax == s.n + s.rTail
  {
    hide WindowInside, CalcGrown;
    GrantGrows(s.cfg, s.n, s.pusher.seen.num + CompactMove(s), m);
  }

  /** With nothing overtaken since the reads, both checks are exact: a push is granted if and only
      if its cells are free (one cell stays unused), a pop if and only if its elements are there. */
  lemma FreshChecksExact<E>(s: Queue<E>, num: nat, peek: nat)
    requires Inv(s) && num >= 1 && peek >= 1
    ensures HaveEnoughRoom(s.n, s.rTail, s.head, num) <==> s.rTailCount + num < s.headCount + s.n
    ensures HaveEnoughData(s.n, s.rHead, s.tail, peek) <==> s.rHeadCount + peek <= s.tailCount
  {
    Facts(s);
    hide Inv, Chain, Logged, WindowInside;
  }

  /** So a reservation on reads that nothing has overtaken is made exactly then: a push gets the next
      cells, a pop the first elements, and whoever gets nothing leaves the queue as it is. */
  lemma FreshReserves<E>(s: Queue<E>, a: Action<E>)
    requires Inv(s) && Enabled(s, a)
    ensures a.ReservePush? && s.pusher.seen.numElm == s.n && s.pusher.seen.rTail == s.rTail && s.pusher.seen.head == s.head ==>
      var num, s' := s.pusher.seen.num, Apply(s, a);
      && s'.pusher.Idle? && s'.pops == s.pops
      && (if s.rTailCount + num < s.headCount + s.n then
            && |s'.pushes| == |s.pushes| + 1 && s'.pushes[..|s.pushes|] == s.pushes && s'.rTailCount == s.rTailCount + num
            && s'.pushes[|s.pushes|] == Held(s.rTailCount, num, num, Windows(s.n, s.rTail, num), s'.rTail)
          else s' == s.(pusher := Idle))
    ensures a.ReservePop? && s.popper.pop.numElm == s.n && s.popper.pop.tail == s.tail ==>
      var p, s' := s.popper.pop, Apply(s, a);
      && s'.pushes == s.pushes
      && (if s.rHeadCount + p.peek <= s.tailCount then
            && |s'.pops| == |s.pops| + 1 && s'.pops[..|s.pops|] == s.pops && s'.rHeadCount == s.rHeadCount + p.num
            && s'.pops[|s.pops|] == Held(s.rHeadCount, p.num, p.peek, Windows(s.n, s.rHead, p.peek), s'.rHead)
          else s' == s.(popper := Outside))
  {
    hide Inv, Chain, Logged, WindowInside, Counters, HaveEnoughRoom, HaveEnoughData, Advance, Windows;
    Facts(s);
    if a.ReservePush? {
      FreshChecksExact(s, s.pusher.seen.num, 1);
    } else if a.ReservePop? {
      FreshChecksExact(s, 1, s.popper.pop.peek);
    }
  }

  /** A compaction takes place exactly when no push and no pop is outstanding and no popper is inside;
      otherwise the pusher goes on with the size it knows. */
  lemma CompactsExactly<E>(s: Queue<E>, m: nat)
    requires Inv(s) && Enabled(s, CompactQueue(m))
    ensures var s' := Apply(s, CompactQueue(m));
      if s.tailCount == s.rTailCount && s.headCount == s.rHeadCount && s.popper.Outside?
      then s'.pusher == Storing(s.pusher.seen, m) && s'.n == m
      else s' == s.(pusher := Rechecking(s.pusher.seen))
  {
    hide Inv, Wellformed, CalcGrown, Compact, WindowInside, Roomy;
    Facts(s);
    NoneOutstanding(s);
    GrantGrows(s.cfg, s.n, s.pusher.seen.num + CompactMove(s), m);
    CompactFrame(s, m);
  }

  /** By the indices and lists, and by the counters. */
  lemma NoneOutstanding<E>(s: Queue<E>)
    requires Inv(s)
    ensures s.tail == s.rTail <==> s.tailCount == s.rTailCount
    ensures s.popDone == |s.pops| <==> s.headCount == s.rHeadCount
  {
    hide Inv, Wellformed, WindowInside;
    Facts(s);
    if s.popDone < |s.pops| {
      assert EndsAtNext(s.pops, s.popDone, s.rHeadCount);
      ChainBelow(s.pops, s.popDone, s.rHeadCount, s.popDone);
    }
  }

  lemma {:induction false} ChainBelow(rs: seq<Held>, done: nat, end: nat, k: nat)
    requires done <= k < |rs| && forall i :: done <= i < |rs| ==> EndsAtNext(rs, i, end)
    ensures rs[k].start < end
    decreases |rs| - k
  {
    assert EndsAtNext(rs, k, end);
    if k + 1 < |rs| {
      ChainBelow(rs, done, end, k + 1);
    }
  }

  /** A push that had to compact is always refused at its second check, whatever the new size: it
      never reserves with the indices it read before the compaction. */
  lemma CompactingPushRetries<E>(s: Queue<E>, m: nat)
    requires Inv(s) && Enabled(s, CompactQueue(m))
    ensures var s' := Apply(s, CompactQueue(m));
      && (s'.pusher.Storing? || s'.pusher.Rechecking?) && !Roomy(s'.pusher.seen)
      && (s'.pusher.Storing? ==> !Roomy(s'.pusher.seen.(numElm := s'.pusher.size)))
  {
    hide Inv, Wellformed, Counters, CalcGrown, Compact;
    Facts(s);
    GrantGrows(s.cfg, s.n, s.pusher.seen.num + CompactMove(s), m);
    CompactFrame(s, m);
  }

  // ---------------------------------------------------------------------------------------------
  // Contents
  // ---------------------------------------------------------------------------------------------

  /** The elements between two indices, read the way a window reads them. */
  function Between<E>(s: Queue<E>, a: nat, b: nat): seq<E>
    requires Wellformed(s) && a < s.n && b < s.n
  {
    if a <= b then s.buff[a..b] else s.buff[a..s.n] + s.buff[..b]
  }

  /** Committed elements not reserved by any pop, by counters. */
  function Unread<E>(s: Queue<E>): seq<E>
    requires s.rHeadCount <= |s.log|
  {
    s.log[s.rHeadCount..]
  }

  lemma {:induction false} BetweenIsLog<E>(s: Queue<E>, a: nat)
    requires Inv(s) && s.headCount <= a <= s.tailCount
    ensures 0 <= Cell(s, a) < s.n && a <= |s.log| && Between(s, Cell(s, a), s.tail) == s.log[a..]
  {
    hide Inv, Chain, CellLogged, PusherOk, PopperOk, WindowInside;
    Facts(s);
    var b := Between(s, Cell(s, a), s.tail);
    forall i | 0 <= i < s.tailCount - a
      ensures b[i] == s.log[a + i]
    {
      LoggedValue(s, a + i);
    }
  }

  lemma LoggedValue<E>(s: Queue<E>, c: nat)
    requires Inv(s) && s.headCount <= c < s.tailCount
    ensures 0 <= Cell(s, c) < s.n <= |s.buff| && c < |s.log| && s.buff[Cell(s, c)] == s.log[c]
  {
    hide Inv, Chain, PusherOk, PopperOk, WindowInside;
    Facts(s);
    CommittedAt(s, c);
  }

  /** What lies in the buffer from Head (or ReservedHead) up to Tail is what was committed there. */
  lemma MemoryIsLog<E>(s: Queue<E>)
    requires Inv(s)
    ensures s.headCount <= s.rHeadCount <= |s.log| && s.head < s.n && s.rHead < s.n && s.tail < s.n
    ensures Between(s, s.head, s.tail) == s.log[s.headCount..]
    ensures Between(s, s.rHead, s.tail) == Unread(s)
  {
    hide Inv, Chain, Logged, PusherOk, PopperOk, WindowInside;
    Facts(s);
    BetweenIsLog(s, s.headCount);
    BetweenIsLog(s, s.rHeadCount);
  }

  /** The element sequence read from Head to Tail survives growing, shrinking and all three cases of
      compaction. */
  lemma ResizeKeepsContents<E>(s: Queue<E>, a: Action<E>)
    requires Inv(s) && Enabled(s, a) && !Overruns(s, a)
    requires a.GrowQueue? || a.CompactQueue? || a.StoreSize? || a.ShrinkQueue?
    ensures var s' := Apply(s, a);
      && Inv(s') && s'.head < s'.n && s'.rHead < s'.n && s'.tail < s'.n && s.head < s.n && s.rHead < s.n && s.tail < s.n
      && Between(s', s'.head, s'.tail) == Between(s, s.head, s.tail)
      && Between(s', s'.rHead, s'.tail) == Between(s, s.rHead, s.tail)
  {
    hide Inv, Wellformed, Enabled, Overruns, Between, Compact;
    Facts(s);
    StepInv(s, a);
    MemoryIsLog(s);
    MemoryIsLog(Apply(s, a));
    if a.CompactQueue? {
      CompactCounts(s, a.newSize);
    }
  }

  lemma CompactCounts<E>(s: Queue<E>, m: nat)
    requires Wellformed(s) && Enabled(s, CompactQueue(m))
    ensures var s' := Apply(s, CompactQueue(m));
      s'.headCount == s.headCount && s'.rHeadCount == s.rHeadCount && s'.tailCount == s.tailCount && s'.log == s.log
  {
    hide Move, WindowInside, CalcGrown;
    GrantGrows(s.cfg, s.n, s.pusher.seen.num + CompactMove(s), m);
  }

  /** An outstanding pop window shows, for as long as it is outstanding and whatever is resized
      meanwhile, the committed elements of its counters. */
  lemma PopWindowReads<E>(s: Queue<E>, k: nat)
    requires Inv(s) && s.popDone <= k < |s.pops|
    ensures WindowInside(s.pops[k], |s.buff|) && s.pops[k].start + s.pops[k].span <= |s.log|
    ensures Contents(s, s.pops[k]) == s.log[s.pops[k].start..s.pops[k].start + s.pops[k].span]
  {
    Facts(s);
    hide Inv, Chain, PusherOk, PopperOk, CellLogged;
    PopAt(s, k);
    var r := s.pops[k];
    forall i | 0 <= i < r.span
      ensures s.buff[CellAt(r.win, i)] == s.log[r.start + i]
    {
      LoggedValue(s, r.start + i);
      assert CellAt(r.win, i) == Cell(s, r.start + i);
    }
  }

  /** Cell `i` of push window `k` is no cell of another push window, of an outstanding pop window,
      or of a committed element. */
  lemma PushWindowPrivate<E>(s: Queue<E>, k: nat, i: nat)
    requires Inv(s) && s.pushDone <= k < |s.pushes| && i < s.pushes[k].num
    ensures forall l, j :: s.pushDone <= l < |s.pushes| && 0 <= j < s.pushes[l].num && (l != k || j != i) ==>
      CellAt(s.pushes[l].win, j) != CellAt(s.pushes[k].win, i)
    ensures forall l, j :: s.popDone <= l < |s.pops| && 0 <= j < s.pops[l].span ==>
      CellAt(s.pops[l].win, j) != CellAt(s.pushes[k].win, i)
    ensures forall c :: s.headCount <= c < s.tailCount ==> Cell(s, c) != CellAt(s.pushes[k].win, i)
  {
    hide Inv, Chain, PusherOk, PopperOk, WindowInside, Logged;
    Facts(s);
    PushAt(s, k);
    assert CellAt(s.pushes[k].win, i) == Cell(s, s.pushes[k].start + i);
    forall l, j | s.pushDone <= l < |s.pushes| && 0 <= j < s.pushes[l].num && (l != k || j != i)
      ensures CellAt(s.pushes[l].win, j) != CellAt(s.pushes[k].win, i)
    {
      PushAt(s, l);
      assert CellAt(s.pushes[l].win, j) == Cell(s, s.pushes[l].start + j);
      if l < k {
        PushesApart(s, l, k);
      } else if k < l {
        PushesApart(s, k, l);
      }
    }
    forall l, j | s.popDone <= l < |s.pops| && 0 <= j < s.pops[l].span
      ensures CellAt(s.pops[l].win, j) != CellAt(s.pushes[k].win, i)
    {
      PopAt(s, l);
      assert CellAt(s.pops[l].win, j) == Cell(s, s.pops[l].start + j);
    }
  }

  lemma PushesApart<E>(s: Queue<E>, j: nat, k: nat)
    requires Inv(s) && s.pushDone <= j < k < |s.pushes|
    ensures s.pushes[j].start + s.pushes[j].num <= s.pushes[k].start
  {
    ChainOrder(s.pushes, s.pushDone, s.tailCount, s.rTailCount, j + 1, k);
    assert EndsAtNext(s.pushes, j, s.rTailCount);
  }

  // ---------------------------------------------------------------------------------------------
  // Refinement of a FIFO queue, and whole runs
  // ---------------------------------------------------------------------------------------------

  /** The elements a step adds to the abstract queue: a committed window, as filled by then. */
  function Arriving<E>(s: Queue<E>, a: Action<E>): seq<E>
    requires Wellformed(s) && Enabled(s, a)
  {
    if a.CommitPush? then Contents(s, s.pushes[s.pushDone]) else []
  }

  /** The elements a step takes out: the popped front part of a granted window. */
  function Leaving<E>(s: Queue<E>, a: Action<E>): seq<E>
    requires Wellformed(s) && Enabled(s, a) && Wellformed(Apply(s, a))
  {
    if Grants(s, a) && s.popper.pop.num <= s.popper.pop.peek then
      GrantedWindow(s, a);
      Contents(Apply(s, a), Apply(s, a).pops[|s.pops|])[..s.popper.pop.num]
    else []
  }

  lemma GrantedWindow<E>(s: Queue<E>, a: Action<E>)
    requires Wellformed(s) && Enabled(s, a) && Grants(s, a)
    ensures |Apply(s, a).pops| == |s.pops| + 1 && Apply(s, a).pops[|s.pops|].span == s.popper.pop.peek
  {
  }

  /** Every step is a step of a FIFO queue: a commit appends its window's contents, a granted
      reservation sees the first `peek` elements and takes the first `num` of them, and nothing else
      changes the contents. */
  lemma RefinesFifo<E>(s: Queue<E>, a: Action<E>)
    requires Inv(s) && Enabled(s, a) && !Breaks(s, a)
    ensures Inv(Apply(s, a)) && s.rHeadCount <= |s.log| && Apply(s, a).rHeadCount <= |Apply(s, a).log|
    ensures Unread(s) + Arriving(s, a) == Leaving(s, a) + Unread(Apply(s, a))
    ensures Grants(s, a) ==> var p, s' := s.popper.pop, Apply(s, a);
      p.num <= p.peek <= |Unread(s)| && |s'.pops| == |s.pops| + 1 && WindowInside(s'.pops[|s.pops|], |s'.buff|) &&
      Contents(s', s'.pops[|s.pops|]) == Unread(s)[..p.peek]
  {
    hide Inv, Wellformed, Breaks, Compact, WindowInside, HaveEnoughData, Contents, Counters, Chain, Roomy;
    StepInv(s, a);
    FrontBound(s);
    FrontBound(Apply(s, a));
    match a
    case CommitPush => assert Unread(Apply(s, a)) == Unread(s) + Contents(s, s.pushes[s.pushDone]);
    case ReservePop => PopRefines(s);
    case CompactQueue(m) => CompactCounts(s, m);
    case _ =>
  }

  lemma FrontBound<E>(s: Queue<E>)
    requires Inv(s)
    ensures Wellformed(s) && s.popDone <= |s.pops| && s.rHeadCount <= |s.log| == s.tailCount
  {
  }

  lemma PopRefines<E>(s: Queue<E>)
    requires Inv(s) && Enabled(s, ReservePop) && Inv(Apply(s, ReservePop)) && s.rHeadCount <= |s.log|
    ensures Apply(s, ReservePop).rHeadCount <= |s.log|
    ensures Unread(s) == Leaving(s, ReservePop) + Unread(Apply(s, ReservePop))
    ensures Grants(s, ReservePop) ==> var p, s' := s.popper.pop, Apply(s, ReservePop);
      p.num <= p.peek <= |Unread(s)| && |s'.pops| == |s.pops| + 1 && WindowInside(s'.pops[|s.pops|], |s'.buff|) &&
      Contents(s', s'.pops[|s.pops|]) == Unread(s)[..p.peek]
  {
    hide Inv, Wellformed, WindowInside, HaveEnoughData, Contents, Counters, Chain;
    FrontBound(s);
    FrontBound(Apply(s, ReservePop));
    Facts(s);
    if Grants(s, ReservePop) {
      PopWindowReads(Apply(s, ReservePop), |s.pops|);
    }
  }

  ghost predicate CanRun<E>(s: Queue<E>, run: seq<Action<E>>)
    decreases |run|
  {
    run == [] || (Wellformed(s) && Enabled(s, run[0]) && CanRun(Apply(s, run[0]), run[1..]))
  }

  ghost function Run<E>(s: Queue<E>, run: seq<Action<E>>): Queue<E>
    requires CanRun(s, run)
    decreases |run|
  {
    if run == [] then s else Run(Apply(s, run[0]), run[1..])
  }

  ghost predicate NeverBreaks<E>(s: Queue<E>, run: seq<Action<E>>)
    requires CanRun(s, run)
    decreases |run|
  {
    run == [] || (!Breaks(s, run[0]) && NeverBreaks(Apply(s, run[0]), run[1..]))
  }

  /** The popper inside its reserve section has read the size that is in force, and no compaction has
      another one ready. */
  predicate SizeFresh<E>(s: Queue<E>) {
    && !s.pusher.Storing?
    && match s.popper
       case Sizing(_, _, read) => read == s.n
       case Reading(p) => p.numElm == s.n
       case _ => false
  }

  /** Only growing in place can overtake it: the pop lock keeps compactions and shrinking out. */
  lemma SizeStaysFresh<E>(s: Queue<E>, a: Action<E>)
    requires Wellformed(s) && Enabled(s, a) && SizeFresh(s) && !a.GrowQueue? && !a.ReservePop?
    ensures SizeFresh(Apply(s, a))
  {
    hide WindowInside, Roomy;
  }

  lemma {:induction false} SizeStaysFreshOver<E>(s: Queue<E>, run: seq<Action<E>>)
    requires CanRun(s, run) && SizeFresh(s)
    requires forall i :: 0 <= i < |run| ==> !run[i].GrowQueue? && !run[i].ReservePop?
    ensures SizeFresh(Run(s, run))
    decreases |run|
  {
    hide Wellformed, Enabled, Apply, SizeFresh;
    if run != [] {
      SizeStaysFresh(s, run[0]);
      SizeStaysFreshOver(Apply(s, run[0]), run[1..]);
    }
  }

  /** What it takes to stray: a pop that reads NumElm while no compaction has yet to store it, and
      then reserves without a growth in place in between, never goes astray. */
  lemma StraysOnlyOvertaken<E>(s: Queue<E>, peek: nat, num: nat, run: seq<Action<E>>)
    requires Wellformed(s) && Enabled(s, ReadSize(peek, num)) && !s.pusher.Storing?
    requires CanRun(Apply(s, ReadSize(peek, num)), run)
    requires forall i :: 0 <= i < |run| ==> !run[i].GrowQueue? && !run[i].ReservePop?
    ensures var t := Run(Apply(s, ReadSize(peek, num)), run);
      Wellformed(t) && Enabled(t, ReservePop) ==> !Strays(t, ReservePop)
  {
    hide Wellformed, Enabled, Apply, SizeFresh, CanRun, Run, Strays;
    ReadsFresh(s, peek, num);
    SizeStaysFreshOver(Apply(s, ReadSize(peek, num)), run);
    FreshNeverStrays(Run(Apply(s, ReadSize(peek, num)), run));
  }

  lemma ReadsFresh<E>(s: Queue<E>, peek: nat, num: nat)
    requires Wellformed(s) && Enabled(s, ReadSize(peek, num)) && !s.pusher.Storing?
    ensures SizeFresh(Apply(s, ReadSize(peek, num)))
  {
    hide WindowInside;
  }

  lemma FreshNeverStrays<E>(s: Queue<E>)
    requires SizeFresh(s)
    ensures Wellformed(s) && Enabled(s, ReservePop) ==> !Strays(s, ReservePop)
  {
    hide WindowInside, HaveEnoughData;
  }

  /** All elements committed and all elements popped along a run. */
  ghost function Committed<E>(s: Queue<E>, run: seq<Action<E>>): seq<E>
    requires CanRun(s, run)
    decreases |run|
  {
    if run == [] then [] else Arriving(s, run[0]) + Committed(Apply(s, run[0]), run[1..])
  }

  ghost function Popped<E>(s: Queue<E>, run: seq<Action<E>>): seq<E>
    requires CanRun(s, run)
    decreases |run|
  {
    if run == [] || !Wellformed(Apply(s, run[0])) then []
    else Leaving(s, run[0]) + Popped(Apply(s, run[0]), run[1..])
  }

  lemma StepBalance<E>(s: Queue<E>, a: Action<E>)
    requires Inv(s) && Enabled(s, a) && !Breaks(s, a)
    ensures Inv(Apply(s, a)) && Wellformed(Apply(s, a))
    ensures s.rHeadCount <= |s.log| && Apply(s, a).rHeadCount <= |Apply(s, a).log|
    ensures Unread(s) + Arriving(s, a) == Leaving(s, a) + Unread(Apply(s, a))
  {
    hide Inv, Wellformed, Apply, Arriving, Leaving, Unread, Breaks;
    FrontBound(s);
    RefinesFifo(s, a);
    FrontBound(Apply(s, a));
  }

  /** The queue is sound in every state of the run. */
  ghost predicate AlwaysSound<E>(s: Queue<E>, run: seq<Action<E>>)
    requires CanRun(s, run)
    decreases |run|
  {
    Inv(s) && (run == [] || AlwaysSound(Apply(s, run[0]), run[1..]))
  }

  /** Whole runs: the queue stays sound if and only if none of the two breaking steps is taken. */
  lemma {:induction false} RunSound<E>(s: Queue<E>, run: seq<Action<E>>)
    requires Inv(s) && CanRun(s, run)
    ensures AlwaysSound(s, run) <==> NeverBreaks(s, run)
    decreases |run|
  {
    hide Inv, Wellformed, Apply, Breaks, Enabled;
    if run != [] {
      StepInv(s, run[0]);
      if !Breaks(s, run[0]) {
        RunSound(Apply(s, run[0]), run[1..]);
      } else {
        Unsound(Apply(s, run[0]), run[1..]);
      }
    }
  }

  lemma Unsound<E>(s: Queue<E>, run: seq<Action<E>>)
    requires !Inv(s) && CanRun(s, run)
    ensures !AlwaysSound(s, run)
  {
  }

  /** Over every run in which neither of the two breaking steps is taken, for any number of
      reservations on both sides and any interleaving with growing, compacting and shrinking: what
      was in the queue and what was committed, in order, is what was popped, in order, and what is
      still there. */
  lemma {:induction false} RunIsFifo<E>(s: Queue<E>, run: seq<Action<E>>)
    requires Inv(s) && CanRun(s, run) && NeverBreaks(s, run)
    ensures Inv(Run(s, run)) && s.rHeadCount <= |s.log| && Run(s, run).rHeadCount <= |Run(s, run).log|
    ensures Unread(s) + Committed(s, run) == Popped(s, run) + Unread(Run(s, run))
    decreases |run|
  {
    hide Inv, Wellformed, Apply, Arriving, Leaving, Unread, Breaks, Enabled;
    FrontBound(s);
    if run == [] {
      assert Unread(s) + [] == [] + Unread(s);
    } else {
      StepBalance(s, run[0]);
      var s1 := Apply(s, run[0]);
      RunIsFifo(s1, run[1..]);
      Glue(Unread(s), Arriving(s, run[0]), Leaving(s, run[0]), Unread(s1),
           Committed(s1, run[1..]), Popped(s1, run[1..]), Unread(Run(s1, run[1..])));
    }
  }

  lemma FifoFromEmpty<E>(cfg: Config, buff: seq<E>, run: seq<Action<E>>)
    requires ConfigOk(cfg) && |buff| == cfg.sizeMax
    requires CanRun(Init(cfg, buff), run) && NeverBreaks(Init(cfg, buff), run)
    ensures var s := Init(cfg, buff);
      Inv(Run(s, run)) && Run(s, run).rHeadCount <= |Run(s, run).log| &&
      Committed(s, run) == Popped(s, run) + Unread(Run(s, run))
  {
    hide Inv, Wellformed, CanRun, NeverBreaks, Committed, Popped;
    InitInv(cfg, buff);
    RunIsFifo(Init(cfg, buff), run);
    assert Unread(Init(cfg, buff)) == [];
    assert [] + Committed(Init(cfg, buff), run) == Committed(Init(cfg, buff), run);
  }

  /** Neither side is ever stuck: from every state the pusher and the popper have an access they may make,
      whichever size the buffer manager grants of those it may. */
  lemma NeverStuck<E>(s: Queue<E>)
    requires Inv(s)
    ensures Wellformed(s)
    ensures match s.pusher
      case Idle => forall num: nat :: num >= 1 ==> Enabled(s, ReadForPush(num))
      case Checking(seen) =>
        if Roomy(seen) then Enabled(s, ReservePush) else if Resizable(s) then Enabled(s, GrowQueue(s.cfg.sizeMax)) else Enabled(s, SeeWrapped)
      case Wrapped(_) => Enabled(s, SkipGrow) && (s.tail == s.rTail <==> Enabled(s, GoCompact))
      case Compacting(_) => Enabled(s, CompactQueue(s.cfg.sizeMax))
      case Storing(_, _) => Enabled(s, StoreSize)
      case Rechecking(_) => Enabled(s, ReservePush)
    ensures match s.popper
      case Outside => forall peek: nat, num: nat :: 1 <= num <= peek ==> Enabled(s, ReadSize(peek, num))
      case Sizing(_, _, _) => Enabled(s, ReadForPop)
      case Reading(_) => Enabled(s, ReservePop)
      case Reserved => Enabled(s, LeavePop)
    ensures s.pushDone < |s.pushes| ==> Enabled(s, CommitPush)
    ensures s.popDone < |s.pops| ==> Enabled(s, CommitPop)
  {
    hide Inv, WindowInside, Roomy, CalcGrown;
    Facts(s);
  }
}
