/** Index arithmetic of the circular reserve/commit queues.

    The queues keep four indices below NumElm.  Behind each index stands an unbounded counter of
    the elements that ever passed it; the index is that counter modulo NumElm.  The lemmas here say
    that the wrap-around tests of the source decide exactly the counter inequalities they stand for. */
module RingIndex {

  /** A contiguous run of cells handed to a kernel: the index of the first cell and a length. */
  datatype Window = Window(base: nat, num: nat)

  /** The index of the element that `c` elements precede: `c` less all whole laps. */
  function Index(n: nat, c: nat): (i: nat)
    requires n > 0
    ensures i < n
  {
    if c < n then c else Index(n, c - n)
  }

  predicate HaveEnoughRoom(numelm: int, rTail: int, head: int, num: int) {
    if rTail >= head then
      !(rTail + num >= numelm && head <= rTail + num - numelm)
    else
      !(head <= rTail + num)
  }

  predicate HaveEnoughData(numelm: int, rHead: int, tail: int, peek: int) {
    if rHead == tail then false
    else if rHead < tail then rHead + peek <= tail
    else !(rHead + peek >= numelm && tail < rHead + peek - numelm)
  }

  /** One conditional subtraction, as the source advances an index. */
  function Advance(numelm: nat, index: nat, num: nat): nat {
    if index + num >= numelm then index + num - numelm else index + num
  }

  /** The one or two pieces of a reservation of `num` cells at `index`. */
  function Windows(numelm: nat, index: nat, num: nat): (Window, Window)
    requires index < numelm
  {
    if index + num >= numelm then
      (Window(index, numelm - index), Window(0, index + num - numelm))
    else
      (Window(index, num), Window(0, 0))
  }

  /** Element `i` of a two-piece reservation. */
  function CellAt(w: (Window, Window), i: nat): nat {
    if w.0.num > i then w.0.base + i else w.1.base + (i - w.0.num)
  }

  /** A counter less than a lap ahead: its index is one conditional subtraction away. */
  lemma {:induction false} IndexOfAdvance(n: nat, a: nat, d: nat)
    requires n > 0 && d <= n
    ensures Index(n, a + d) == Advance(n, Index(n, a), d)
  {
    if a >= n {
      IndexOfAdvance(n, a - n, d);
    }
  }

  /** Two counters less than a lap apart have the same index only if they are equal. */
  lemma SameIndexSameCounter(n: nat, a: nat, b: nat)
    requires n > 0 && a <= b < a + n
    ensures Index(n, a) == Index(n, b) <==> a == b
  {
    IndexOfAdvance(n, a, b - a);
  }

  /** `HaveEnoughRoom` on the indices decides whether the reservation stays within the free cells:
      one cell is always left unused. */
  lemma RoomExact(n: nat, head: nat, rTail: nat, num: nat)
    requires n > 0 && head <= rTail < head + n
    ensures HaveEnoughRoom(n, Index(n, rTail), Index(n, head), num) <==> rTail + num <= head + n - 1
  {
    IndexOfAdvance(n, head, rTail - head);
  }

  /** `HaveEnoughData` on the indices decides whether the peeked elements are all committed;
      an empty queue refuses even an empty peek. */
  lemma DataExact(n: nat, rHead: nat, tail: nat, peek: nat)
    requires n > 0 && rHead <= tail < rHead + n
    ensures HaveEnoughData(n, Index(n, rHead), Index(n, tail), peek) <==> rHead < tail && rHead + peek <= tail
  {
    IndexOfAdvance(n, rHead, tail - rHead);
  }

  /** The two window pieces denote, in order, the cells of consecutive counters. */
  lemma WindowsExact(n: nat, start: nat, num: nat, i: nat)
    requires n > 0 && num <= n && i < num
    ensures var w := Windows(n, Index(n, start), num);
      w.0.num + w.1.num == num && w.0.base + w.0.num <= n && w.1.base + w.1.num <= n &&
      CellAt(w, i) == Index(n, start + i)
  {
    IndexOfAdvance(n, start, i);
  }

  /** Index is the remainder that the code computes with `%`. */
  lemma {:induction false} IndexIsRemainder(n: nat, c: nat)
    requires n > 0
    ensures Index(n, c) == c % n
  {
    if c >= n {
      IndexIsRemainder(n, c - n);
      LessOneLap(n, c);
    }
  }

  lemma MultipleBounds(n: int, k: int)
    requires n > 0
    ensures k >= 1 ==> n * k >= n
    ensures k <= -1 ==> n * k <= -n
  {
  }

  lemma LessOneLap(n: int, c: int)
    requires 0 < n <= c
    ensures c % n == (c - n) % n
  {
    var k := c / n - (c - n) / n - 1;
    assert n * k == (c - n) % n - c % n;
    MultipleBounds(n, k);
  }
}
