/** Copying in and out of a reservation whose window may be split in two pieces. */
module Accessor {
  import opened Common
  import opened RingIndex

  /** The pieces lie in the buffer and do not overlap. */
  predicate Fits(w: (Window, Window), size: nat) {
    && w.0.base + w.0.num <= size && w.1.base + w.1.num <= size
    && (w.1.num == 0 || w.1.base + w.1.num <= w.0.base || w.0.base + w.0.num <= w.1.base)
  }

  function Count(w: (Window, Window)): nat { w.0.num + w.1.num }

  /** The reservation as one sequence. */
  function Flat<E>(b: seq<E>, w: (Window, Window)): (f: seq<E>)
    requires Fits(w, |b|)
    ensures |f| == Count(w)
  {
    b[w.0.base..w.0.base + w.0.num] + b[w.1.base..w.1.base + w.1.num]
  }

  /** `b` with `s` written from index `d` on. */
  function Overwrite<E>(b: seq<E>, d: nat, s: seq<E>): (r: seq<E>)
    requires d + |s| <= |b|
    ensures |r| == |b|
  {
    b[..d] + s + b[d + |s|..]
  }

  predicate InWindows(w: (Window, Window), j: int) {
    w.0.base <= j < w.0.base + w.0.num || w.1.base <= j < w.1.base + w.1.num
  }

  /** Nothing outside the two pieces differs. */
  ghost predicate Elsewhere<E>(a: seq<E>, b: seq<E>, w: (Window, Window)) {
    |a| == |b| && forall j :: 0 <= j < |a| && !InWindows(w, j) ==> a[j] == b[j]
  }

  /** getElementAt addresses the elements of the flat view. */
  lemma FlatAt<E>(b: seq<E>, w: (Window, Window), i: nat)
    requires Fits(w, |b|) && i < Count(w)
    ensures CellAt(w, i) < |b| && Flat(b, w)[i] == b[CellAt(w, i)] && InWindows(w, CellAt(w, i))
  {
  }

  /** Two indices of the flat view never address the same cell. */
  lemma CellsDistinct(w: (Window, Window), size: nat, i: nat, j: nat)
    requires Fits(w, size) && i < j < Count(w)
    ensures CellAt(w, i) != CellAt(w, j)
  {
  }

  lemma WriteFirst<E>(b: seq<E>, w: (Window, Window), idx: nat, s: seq<E>)
    requires Fits(w, |b|) && idx + |s| <= w.0.num
    ensures Flat(Overwrite(b, w.0.base + idx, s), w) == Overwrite(Flat(b, w), idx, s)
    ensures Elsewhere(b, Overwrite(b, w.0.base + idx, s), w)
  {
    var b' := Overwrite(b, w.0.base + idx, s);
    forall i | 0 <= i < Count(w)
      ensures Flat(b', w)[i] == Overwrite(Flat(b, w), idx, s)[i]
    {
      FlatAt(b', w, i);
      FlatAt(b, w, i);
    }
  }

  lemma WriteSecond<E>(b: seq<E>, w: (Window, Window), idx: nat, s: seq<E>)
    requires Fits(w, |b|) && idx + |s| <= w.1.num
    ensures Flat(Overwrite(b, w.1.base + idx, s), w) == Overwrite(Flat(b, w), w.0.num + idx, s)
    ensures Elsewhere(b, Overwrite(b, w.1.base + idx, s), w)
  {
    var b' := Overwrite(b, w.1.base + idx, s);
    forall i | 0 <= i < Count(w)
      ensures Flat(b', w)[i] == Overwrite(Flat(b, w), w.0.num + idx, s)[i]
    {
      FlatAt(b', w, i);
      FlatAt(b, w, i);
    }
  }

  lemma OverwriteTwice<E>(b: seq<E>, d: nat, s: seq<E>, t: seq<E>)
    requires d + |s| + |t| <= |b|
    ensures Overwrite(Overwrite(b, d, s), d + |s|, t) == Overwrite(b, d, s + t)
  {
  }

  lemma OverwriteFrom<E>(was: seq<E>, now: seq<E>, d: nat, part: seq<E>)
    requires |now| == |was| && d + |part| <= |was|
    requires forall j :: 0 <= j < |was| ==> now[j] == if d <= j < d + |part| then part[j - d] else was[j]
    ensures now == Overwrite(was, d, part)
  {
  }

  method Memcpy<E>(dst: array<E>, d: nat, src: array<E>, s: nat, num: nat)
    requires dst != src && d + num <= dst.Length && s + num <= src.Length
    modifies dst
    ensures dst[..] == Overwrite(old(dst[..]), d, old(src[..])[s..s + num])
  {
    ghost var was := dst[..];
    for i := 0 to num
      invariant forall j :: d <= j < d + i ==> dst[j] == src[s + j - d]
      invariant forall j :: 0 <= j < dst.Length && !(d <= j < d + i) ==> dst[j] == was[j]
    {
      dst[d + i] := src[s + i];
    }
    OverwriteFrom(was, dst[..], d, src[..][s..s + num]);
  }

  /** A slice of the flat view that lies in the first or in the second piece. */
  lemma SliceFirst<E>(b: seq<E>, w: (Window, Window), idx: nat, num: nat)
    requires Fits(w, |b|) && idx + num <= w.0.num
    ensures Flat(b, w)[idx..idx + num] == b[w.0.base + idx..w.0.base + idx + num]
  {
    var x, y := Flat(b, w)[idx..idx + num], b[w.0.base + idx..w.0.base + idx + num];
    forall i | 0 <= i < num
      ensures x[i] == y[i]
    {
      FlatAt(b, w, idx + i);
    }
  }

  lemma SliceSecond<E>(b: seq<E>, w: (Window, Window), idx: nat, num: nat)
    requires Fits(w, |b|) && idx + num <= w.1.num
    ensures Flat(b, w)[w.0.num + idx..w.0.num + idx + num] == b[w.1.base + idx..w.1.base + idx + num]
  {
    var x, y := Flat(b, w)[w.0.num + idx..w.0.num + idx + num], b[w.1.base + idx..w.1.base + idx + num];
    forall i | 0 <= i < num
      ensures x[i] == y[i]
    {
      FlatAt(b, w, w.0.num + idx + i);
    }
  }

  lemma SliceConcat<E>(f: seq<E>, i: nat, j: nat, k: nat)
    requires i <= j <= k <= |f|
    ensures f[i..j] + f[j..k] == f[i..k]
  {
  }

  lemma OverwriteParts<E>(b: seq<E>, d: nat, f: seq<E>, i: nat, j: nat, k: nat)
    requires i <= j <= k <= |f| && d + k - i <= |b|
    ensures Overwrite(Overwrite(b, d, f[i..j]), d + j - i, f[j..k]) == Overwrite(b, d, f[i..k])
  {
    SliceConcat(f, i, j, k);
    OverwriteTwice(b, d, f[i..j], f[j..k]);
  }

  lemma ElsewhereTrans<E>(a: seq<E>, b: seq<E>, c: seq<E>, w: (Window, Window))
    requires Elsewhere(a, b, w) && Elsewhere(b, c, w)
    ensures Elsewhere(a, c, w)
  {
  }

  class ReserveCommitQueueAccessor<E> {
    const buff: array<E>
    const win: (Window, Window)

    constructor (buff: array<E>, win: (Window, Window))
      ensures this.buff == buff && this.win == win
    {
      this.buff, this.win := buff, win;
    }

    predicate Valid()
      reads buff
    {
      Fits(win, buff.Length)
    }

    ghost function View(): (f: seq<E>)
      requires Valid()
      reads buff
      ensures |f| == Count(win)
    {
      Flat(buff[..], win)
    }

    /** Elements `idx` to `idx + num` of the reservation become those of `src`, whichever piece they
        are in, and nothing else changes. */
    method CopyFromMem(idx: nat, num: int, src: array<E>)
      requires Valid() && src != buff && (num > 0 ==> idx + num <= Count(win) && num <= src.Length)
      modifies buff
      ensures num <= 0 ==> buff[..] == old(buff[..])
      ensures num > 0 ==> View() == Overwrite(old(View()), idx, src[..num])
      ensures Elsewhere(old(buff[..]), buff[..], win)
    {
      hide Flat, Overwrite;
      if num <= 0 {
        return;
      }
      ghost var b := buff[..];
      assert src[0..num] == src[..num];
      if win.1.num == 0 {
        WriteFirst(b, win, idx, src[0..num]);
        Memcpy(buff, win.0.base + idx, src, 0, num);
        return;
      }
      var i, n, s := idx, num, 0;
      if i < win.0.num {
        var copyNum := Min(win.0.num - i, n);
        WriteFirst(b, win, idx, src[0..copyNum]);
        Memcpy(buff, win.0.base + i, src, 0, copyNum);
        s := copyNum;
        n := n - copyNum;
        i := 0;
      } else {
        i := i - win.0.num;
        NothingWritten(Flat(b, win), idx);
      }
      if n > 0 {
        ghost var mid := buff[..];
        WriteSecond(mid, win, i, src[s..num]);
        OverwriteTwice(Flat(b, win), idx, src[0..s], src[s..num]);
        assert src[0..s] + src[s..num] == src[..num];
        Memcpy(buff, win.1.base + i, src, s, n);
        ElsewhereTrans(b, mid, buff[..], win);
      }
    }

    /** Elements `idx` to `idx + num` of the reservation are written to `dst` from `d` on. */
    method CopyOut(dst: array<E>, d: nat, num: nat, idx: nat)
      requires Valid() && dst != buff && idx + num <= Count(win) && d + num <= dst.Length
      modifies dst
      ensures dst[..] == Overwrite(old(dst[..]), d, View()[idx..idx + num])
    {
      hide Flat, Overwrite;
      if win.1.num == 0 {
        SliceFirst(buff[..], win, idx, num);
        Memcpy(dst, d, buff, win.0.base + idx, num);
      } else {
        CopyPieces(dst, d, num, idx);
      }
    }

    /** The part of the copy that may straddle both pieces. */
    method CopyPieces(dst: array<E>, d: nat, num: nat, idx: nat)
      requires Valid() && dst != buff && idx + num <= Count(win) && d + num <= dst.Length
      modifies dst
      ensures dst[..] == Overwrite(old(dst[..]), d, View()[idx..idx + num])
    {
      hide Flat, Overwrite;
      ghost var b, t, v := buff[..], dst[..], View();
      var i, n, to := idx, num, d;
      if i < win.0.num {
        var copyNum := Min(win.0.num - i, n);
        SliceFirst(b, win, i, copyNum);
        Memcpy(dst, to, buff, win.0.base + i, copyNum);
        n := n - copyNum;
        to := to + copyNum;
        i := 0;
      } else {
        i := i - win.0.num;
        NothingWritten(t, d);
        assert v[idx..idx] == [];
      }
      if n > 0 {
        SliceSecond(b, win, i, n);
        OverwriteParts(t, d, v, idx, idx + num - n, idx + num);
        Memcpy(dst, to, buff, win.1.base + i, n);
      }
    }

    method CopyToMem(idx: nat, num: int, dst: array<E>)
      requires Valid() && dst != buff && (num > 0 ==> idx + num <= Count(win) && num <= dst.Length)
      modifies dst
      ensures dst[..] == if num <= 0 then old(dst[..]) else Overwrite(old(dst[..]), 0, View()[idx..idx + num])
    {
      if num > 0 {
        CopyOut(dst, 0, num, idx);
      }
    }

    /** Queue to queue: the source's pieces and the destination's pieces need not line up. */
    method CopyQueue(dstIdx: nat, num: int, src: ReserveCommitQueueAccessor<E>, srcIdx: nat)
      requires Valid() && src.Valid() && src.buff != buff
      requires num > 0 ==> dstIdx + num <= Count(win) && srcIdx + num <= Count(src.win)
      modifies buff
      ensures num <= 0 ==> buff[..] == old(buff[..])
      ensures num > 0 ==> View() == Overwrite(old(View()), dstIdx, src.View()[srcIdx..srcIdx + num])
      ensures Elsewhere(old(buff[..]), buff[..], win)
    {
      hide Flat, Overwrite;
      if num <= 0 {
        return;
      }
      ghost var b, v := buff[..], src.View();
      if win.1.num == 0 {
        WriteFirst(b, win, dstIdx, v[srcIdx..srcIdx + num]);
        src.CopyOut(buff, win.0.base + dstIdx, num, srcIdx);
        return;
      }
      var i, n, from := dstIdx, num, srcIdx;
      if i < win.0.num {
        var copyNum := Min(win.0.num - i, n);
        WriteFirst(b, win, i, v[from..from + copyNum]);
        src.CopyOut(buff, win.0.base + i, copyNum, from);
        n := n - copyNum;
        from := from + copyNum;
        i := 0;
      } else {
        i := i - win.0.num;
        NothingWritten(Flat(b, win), dstIdx);
        assert v[srcIdx..srcIdx] == [];
      }
      if n > 0 {
        ghost var mid := buff[..];
        WriteSecond(mid, win, i, v[from..from + n]);
        OverwriteParts(Flat(b, win), dstIdx, v, srcIdx, from, srcIdx + num);
        src.CopyOut(buff, win.1.base + i, n, from);
        ElsewhereTrans(b, mid, buff[..], win);
      }
    }
  }

  lemma NothingWritten<E>(f: seq<E>, d: nat)
    requires d <= |f|
    ensures Overwrite(f, d, []) == f
  {
  }
}
