/** The resizable buffer behind the resizable queue: how a requested number of elements becomes a
    granted one.  The buffer is mapped once at its maximum size, so a resize never moves a cell. */
module BufferManager {
  import opened Common

  const PAGE_SIZE: nat := 4096

  /** What callers may rely on: at least the request unless the maximum is smaller, never less than
      the minimum, never more than the maximum. */
  predicate Granted(minNum: nat, maxNum: nat, request: int, granted: int) {
    minNum <= granted <= maxNum && Min(request, maxNum) <= granted
  }

  /** The number of elements that `pages` whole pages hold. */
  function Holds(elmSize: nat, pages: nat): nat
    requires elmSize > 0
  {
    (pages * PAGE_SIZE) / elmSize
  }

  lemma Cancel(a: nat, b: nat, d: nat)
    requires a * d < b * d
    ensures a < b
  {
  }

  /** Pages that cover `num` elements hold at least `num` elements. */
  lemma CoverHolds(elmSize: nat, pages: nat, num: nat)
    requires elmSize > 0 && num * elmSize <= pages * PAGE_SIZE
    ensures num <= Holds(elmSize, pages)
  {
    var q := (pages * PAGE_SIZE) / elmSize;
    assert pages * PAGE_SIZE < (q + 1) * elmSize;
    Cancel(num, q + 1, elmSize);
  }

  lemma Quotient(x: nat, d: nat)
    requires d > 0
    ensures (x / d) * d <= x < (x / d + 1) * d
  {
  }

  lemma Distribute(a: nat, b: nat, d: nat)
    ensures (a + b) * d == a * d + b * d
  {
  }

  /** The fewest pages that cover `num` elements hold less than a page's worth more. */
  lemma CeilingHolds(elmSize: nat, pages: nat, num: nat)
    requires elmSize > 0 && num * elmSize <= pages * PAGE_SIZE < num * elmSize + PAGE_SIZE
    ensures num <= Holds(elmSize, pages) <= num + PAGE_SIZE / elmSize
  {
    CoverHolds(elmSize, pages, num);
    var e := PAGE_SIZE / elmSize;
    Quotient(pages * PAGE_SIZE, elmSize);
    Quotient(PAGE_SIZE, elmSize);
    Distribute(num, e + 1, elmSize);
    Cancel(Holds(elmSize, pages), num + (e + 1), elmSize);
  }

  class ResizableBufferManager {
    const elmSize: nat
    const minNum: nat
    const maxNum: nat
    var curNum: nat

    predicate Valid()
      reads this
    {
      elmSize > 0 && 0 < minNum <= curNum <= maxNum
    }

    /** `estimate` is the fewest pages that hold `num` elements. */
    predicate IsCeiling(num: nat, estimate: nat) {
      num * elmSize <= estimate * PAGE_SIZE < num * elmSize + PAGE_SIZE
    }

    constructor (elmSize: nat, minNum: nat, maxNum: nat)
      requires elmSize > 0 && minNum > 0
      ensures Valid() && curNum == this.minNum
      ensures this.elmSize == elmSize
      ensures minNum <= this.minNum && PAGE_SIZE < (this.minNum + 1) * elmSize
      ensures this.minNum == minNum || this.minNum * elmSize <= PAGE_SIZE
      ensures maxNum <= this.maxNum && (this.maxNum == maxNum || this.maxNum == this.minNum)
    {
      this.elmSize := elmSize;
      this.minNum := Max(minNum, PAGE_SIZE / elmSize);
      this.maxNum := Max(maxNum, Max(minNum, PAGE_SIZE / elmSize));
      this.curNum := Max(minNum, PAGE_SIZE / elmSize);
      new;
      var q := PAGE_SIZE / elmSize;
      assert (q + 1) * elmSize > PAGE_SIZE;
      assert (this.minNum + 1) * elmSize >= (q + 1) * elmSize;
    }

    /** `granted` is what the first page count from `estimate` on holds that is enough for the request, or
        the maximum if that comes first. */
    ghost predicate FirstEnough(request: nat, estimate: nat, pages: nat, granted: nat)
      requires elmSize > 0
    {
      && pages >= estimate && granted == Min(Holds(elmSize, pages), maxNum) && granted >= Min(request, maxNum)
      && forall p :: estimate <= p < pages ==> Holds(elmSize, p) < Min(request, maxNum)
    }

    /** `estimate` is the page count the floating-point division came up with.  The retry loop makes
        up for any underestimate; the grant never falls below the minimum unless the estimate does
        not even cover the minimum, and with an exact ceiling there is no retry. */
    method Resize(request: nat, estimate: nat) returns (granted: nat)
      requires Valid() && request > 0
      modifies this`curNum
      ensures curNum == granted
      ensures Min(request, maxNum) <= granted <= maxNum
      ensures exists pages :: FirstEnough(request, estimate, pages, granted)
      ensures minNum * elmSize <= estimate * PAGE_SIZE ==> Valid() && Granted(minNum, maxNum, request, granted)
      ensures Min(Max(request, minNum), maxNum) * elmSize <= estimate * PAGE_SIZE ==>
        granted == Min(Holds(elmSize, estimate), maxNum)
      ensures IsCeiling(Min(Max(request, minNum), maxNum), estimate) ==>
        granted <= Min(Max(request, minNum), maxNum) + PAGE_SIZE / elmSize
    {
      var numPages := estimate;
      var numElm := Min(Holds(elmSize, numPages), maxNum);
      if Min(Max(request, minNum), maxNum) * elmSize <= estimate * PAGE_SIZE {
        CoverHolds(elmSize, estimate, Min(Max(request, minNum), maxNum));
      }
      if minNum * elmSize <= estimate * PAGE_SIZE {
        CoverHolds(elmSize, estimate, minNum);
      }
      if IsCeiling(Min(Max(request, minNum), maxNum), estimate) {
        CeilingHolds(elmSize, estimate, Min(Max(request, minNum), maxNum));
      }
      while numElm < request && numElm < maxNum
        invariant numPages >= estimate
        invariant forall p :: estimate <= p < numPages ==> Holds(elmSize, p) < Min(request, maxNum)
        invariant numElm == Min(Holds(elmSize, numPages), maxNum)
        invariant minNum * elmSize <= estimate * PAGE_SIZE ==> minNum <= numElm
        invariant Min(Max(request, minNum), maxNum) * elmSize <= estimate * PAGE_SIZE ==>
          numPages == estimate && Min(request, maxNum) <= numElm
        decreases request * elmSize - numPages * PAGE_SIZE
      {
        if request * elmSize <= numPages * PAGE_SIZE {
          CoverHolds(elmSize, numPages, request);
          assert false;
        }
        numPages := numPages + 1;
        numElm := Min(Holds(elmSize, numPages), maxNum);
        if minNum * elmSize <= estimate * PAGE_SIZE {
          CoverHolds(elmSize, numPages, minNum);
        }
      }
      assert FirstEnough(request, estimate, numPages, numElm);
      curNum := numElm;
      granted := numElm;
    }
  }
}
