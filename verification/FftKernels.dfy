/** The FFT kernels in place on their buffers of interleaved real and imaginary parts.

    A kernel reads one block of its source buffer and writes the block of the destination at the
    same place; `Points` is the sequence of complex numbers that a block stands for, and each kernel
    is proved to do to it what the pure transformations of Fft do.  A pass runs a kernel over all
    blocks of a stream.  The fused kernels run all levels on one block, going back and forth between
    two buffers; they are proved equal to the chain of passes, so the discrete Fourier transform of
    Fft.FftIsDft is what they leave in the output. */
module FftKernels {
  import opened Common
  import opened Complex
  import opened Fft

  /** The complex number at point `p` of the part of `a` that starts at `off`. */
  function At(a: seq<real>, off: nat, p: nat): C
    requires off + 2 * p + 1 < |a|
  {
    C(a[off + 2 * p], a[off + 2 * p + 1])
  }

  /** `n` points stored from `off` on. */
  function Points(a: seq<real>, off: nat, n: nat): (x: seq<C>)
    requires off + 2 * n <= |a|
    ensures |x| == n
  {
    seq(n, p requires 0 <= p < n => At(a, off, p))
  }

  lemma PointsParts(a: seq<real>, off: nat, m: nat, n: nat)
    requires off + 2 * (m + n) <= |a|
    ensures Points(a, off, m + n) == Points(a, off, m) + Points(a, off + 2 * m, n)
  {
    var whole, parts := Points(a, off, m + n), Points(a, off, m) + Points(a, off + 2 * m, n);
    forall p | 0 <= p < m + n
      ensures whole[p] == parts[p]
    {
    }
  }

  lemma PointsSame(a: seq<real>, b: seq<real>, off: nat, n: nat)
    requires off + 2 * n <= |a| == |b| && (forall f :: off <= f < off + 2 * n ==> a[f] == b[f])
    ensures Points(a, off, n) == Points(b, off, n)
  {
    forall p | 0 <= p < n
      ensures At(a, off, p) == At(b, off, p)
    {
    }
  }

  lemma PowStep(z: C, k: nat, cur: C, next: C)
    requires cur == Pow(z, k) && next == C(cur.re * z.re - cur.im * z.im, cur.re * z.im + cur.im * z.re)
    ensures next == Pow(z, k + 1)
  {
    hide Pow;
    PowNext(z, k);
  }

  lemma PowNext(z: C, k: nat)
    ensures Pow(z, k + 1) == Mul(Pow(z, k), z)
  {
    hide Mul;
  }

  /** The weight table is filled by repeated multiplication with the root. */
  method InitializeDFTParams(n: nat, wn: C, w: array<real>)
    requires n % 2 == 0 && n <= w.Length
    modifies w
    ensures Points(w[..], 0, n / 2) == Weights(wn, n / 2)
  {
    hide Pow;
    var re, im := 1.0, 0.0;
    var i := 0;
    ghost var k := 0;
    PowZero(wn);
    while i < n
      invariant 2 * k == i <= n && C(re, im) == Pow(wn, k)
      invariant forall p :: 0 <= p < k ==> At(w[..], 0, p) == Pow(wn, p)
    {
      w[i] := re;
      w[i + 1] := im;
      assert At(w[..], 0, k) == C(re, im);
      var nextRe := re * wn.re - im * wn.im;
      var nextIm := re * wn.im + im * wn.re;
      PowStep(wn, k, C(re, im), C(nextRe, nextIm));
      re, im := nextRe, nextIm;
      i := i + 2;
      k := k + 1;
    }
  }

  lemma PowZero(z: C)
    ensures Pow(z, 0) == ONE
  {
  }

  /** `a` with point `k` of the part at `off` replaced. */
  function SetAt(a: seq<real>, off: nat, k: nat, v: C): (r: seq<real>)
    requires off + 2 * k + 1 < |a|
    ensures |r| == |a| && At(r, off, k) == v
    ensures forall p {:trigger At(r, off, p)} :: 0 <= p && off + 2 * p + 1 < |a| && p != k ==>
      At(r, off, p) == At(a, off, p)
    ensures forall f :: 0 <= f < |a| && f != off + 2 * k && f != off + 2 * k + 1 ==> r[f] == a[f]
  {
    a[off + 2 * k := v.re][off + 2 * k + 1 := v.im]
  }

  /** Copy the point at float `i` of `src` to float `o` of `dst`. */
  method CopyPoint(src: array<real>, i: nat, dst: array<real>, o: nat, ghost off: nat, ghost k: nat)
    requires src != dst && i + 1 < src.Length && o + 1 < dst.Length && o == off + 2 * k
    modifies dst
    ensures dst[..] == SetAt(old(dst[..]), off, k, C(src[i], src[i + 1]))
  {
    dst[o] := src[i];
    dst[o + 1] := src[i + 1];
  }

  /** Nothing but the `n` points at `off` differs. */
  ghost predicate Outside(a: seq<real>, b: seq<real>, off: nat, n: nat) {
    |a| == |b| && forall f :: 0 <= f < |a| && !(off <= f < off + 2 * n) ==> a[f] == b[f]
  }

  lemma SetInside(a: seq<real>, b: seq<real>, off: nat, n: nat, k: nat, v: C)
    requires Outside(a, b, off, n) && k < n && off + 2 * n <= |a|
    ensures Outside(SetAt(a, off, k, v), b, off, n)
  {
    hide At;
  }

  /** The even points of the block, then the odd ones. */
  method FFTReorderSimple(n: nat, src: array<real>, s: nat, dst: array<real>, d: nat)
    requires src != dst && s + 2 * n <= src.Length && d + 2 * n <= dst.Length
    modifies dst
    ensures Points(dst[..], d, n) == Split(Points(src[..], s, n))
    ensures Outside(dst[..], old(dst[..]), d, n)
  {
    hide Split, SetAt, Outside, At;
    ghost var x, first := Points(src[..], s, n), dst[..];
    var totalData := 2 * n;
    var o, i := 0, 0;
    ghost var k := 0;
    OutsideSelf(first, d, n);
    while i < totalData
      invariant i == 4 * k && o == 2 * k && 2 * k <= n + 1
      invariant forall p :: 0 <= p < k ==> At(dst[..], d, p) == x[2 * p]
      invariant Outside(dst[..], first, d, n)
    {
      PointAt(src[..], s, n, 2 * k);
      SetInside(dst[..], first, d, n, k, x[2 * k]);
      CopyPoint(src, s + i, dst, d + o, d, k);
      o, i, k := o + 2, i + 4, k + 1;
    }
    ghost var h := k;
    k := 0;
    i := 2;
    while i < totalData
      invariant i == 2 + 4 * k && o == 2 * (h + k) && h + k <= n
      invariant forall p :: 0 <= p < h ==> At(dst[..], d, p) == x[2 * p]
      invariant forall p :: h <= p < h + k ==> At(dst[..], d, p) == x[2 * (p - h) + 1]
      invariant Outside(dst[..], first, d, n)
    {
      PointAt(src[..], s, n, 2 * k + 1);
      SetInside(dst[..], first, d, n, h + k, x[2 * k + 1]);
      CopyPoint(src, s + i, dst, d + o, d, h + k);
      o, i, k := o + 2, i + 4, k + 1;
    }
    SplitFrom(x, Points(dst[..], d, n), h);
  }

  lemma OutsideSelf(a: seq<real>, off: nat, n: nat)
    ensures Outside(a, a, off, n)
  {
  }

  lemma PointAt(a: seq<real>, off: nat, n: nat, p: nat)
    requires off + 2 * n <= |a| && p < n
    ensures Points(a, off, n)[p] == C(a[off + 2 * p], a[off + 2 * p + 1]) == At(a, off, p)
  {
  }

  lemma SplitFrom(x: seq<C>, y: seq<C>, h: nat)
    requires |y| == |x| && (h == |x| / 2 || h == (|x| + 1) / 2) && 2 * h >= |x|
    requires forall p :: 0 <= p < h ==> y[p] == x[2 * p]
    requires forall p :: h <= p < |x| ==> y[p] == x[2 * (p - h) + 1]
    ensures y == Split(x)
  {
    SplitLength(x);
    forall p | 0 <= p < |x|
      ensures y[p] == Split(x)[p]
    {
      HalvesAt(x, if p < h then p else p - h);
    }
  }

  method WritePoint(dst: array<real>, o: nat, re: real, im: real, ghost off: nat, ghost k: nat)
    requires o + 1 < dst.Length && o == off + 2 * k
    modifies dst
    ensures dst[..] == SetAt(old(dst[..]), off, k, C(re, im))
  {
    dst[o] := re;
    dst[o + 1] := im;
  }

  /** A point times its weight. */
  method Weighted(yRe: real, yIm: real, weightRe: real, weightIm: real) returns (re: real, im: real)
    ensures C(re, im) == Mul(C(yRe, yIm), C(weightRe, weightIm))
  {
    re := yRe * weightRe - yIm * weightIm;
    im := yRe * weightIm + yIm * weightRe;
  }

  /** One iteration of the combine loop, at float `i` of both halves. */
  method Butterfly(n: nat, i: nat, w: array<real>, src: array<real>, s: nat, dst: array<real>, d: nat, ghost k: nat)
    requires src != dst && w != dst && s + 2 * n <= src.Length && d + 2 * n <= dst.Length
    requires i == 2 * k && i + 2 <= n && n == 2 * (n / 2) && n <= w.Length
    modifies dst
    ensures var h := n / 2;
      var y0, y1, weight := At(src[..], s, k), At(src[..], s, h + k), At(w[..], 0, k);
      dst[..] == SetAt(SetAt(old(dst[..]), d, k, Add(y0, Mul(y1, weight))), d, h + k, Sub(y0, Mul(y1, weight)))
  {
    hide SetAt, Mul, Add, Sub;
    var y0Re, y0Im := src[s + i], src[s + i + 1];
    var y1Re, y1Im := src[s + n + i], src[s + n + i + 1];
    var weightRe, weightIm := w[i], w[i + 1];
    var y1wRe, y1wIm := Weighted(y1Re, y1Im, weightRe, weightIm);
    Sums(At(src[..], s, k), C(y1wRe, y1wIm));
    WritePoint(dst, d + i, y0Re + y1wRe, y0Im + y1wIm, d, k);
    WritePoint(dst, d + n + i, y0Re - y1wRe, y0Im - y1wIm, d, n / 2 + k);
  }

  /** Both points of pair `p` have been combined. */
  ghost predicate Combined(a: seq<real>, d: nat, x: seq<C>, ws: seq<C>, p: nat)
    requires p < |ws| && |x| == 2 * |ws| && d + 2 * |x| <= |a|
  {
    var y := Mul(x[|ws| + p], ws[p]);
    At(a, d, p) == Add(x[p], y) && At(a, d, |ws| + p) == Sub(x[p], y)
  }

  lemma CombinedStep(a: seq<real>, d: nat, x: seq<C>, ws: seq<C>, k: nat, p: nat)
    requires k < |ws| && p <= k && |x| == 2 * |ws| && d + 2 * |x| <= |a|
    requires p < k ==> Combined(a, d, x, ws, p)
    ensures var y := Mul(x[|ws| + k], ws[k]);
      Combined(SetAt(SetAt(a, d, k, Add(x[k], y)), d, |ws| + k, Sub(x[k], y)), d, x, ws, p)
  {
    hide SetAt, At, Mul, Add, Sub;
  }

  /** Butterflies between the two halves of a block, with the weights of a table. */
  method CombineDFT(n: nat, w: array<real>, src: array<real>, s: nat, dst: array<real>, d: nat)
    requires src != dst && w != dst && s + 2 * n <= src.Length && d + 2 * n <= dst.Length
    requires n == 2 * (n / 2) && n <= w.Length
    modifies dst
    ensures Points(dst[..], d, n) == Combine(Points(src[..], s, n), Points(w[..], 0, n / 2))
    ensures Outside(dst[..], old(dst[..]), d, n)
  {
    hide Combine, SetAt, Outside, At, Mul, Add, Sub, Combined;
    ghost var h := n / 2;
    ghost var x, ws, first := Points(src[..], s, n), Points(w[..], 0, h), dst[..];
    var i := 0;
    ghost var k := 0;
    OutsideSelf(first, d, n);
    while i < n
      invariant 2 * k == i <= n
      invariant forall p :: 0 <= p < k ==> Combined(dst[..], d, x, ws, p)
      invariant Outside(dst[..], first, d, n)
    {
      ghost var y, was := Mul(x[h + k], ws[k]), dst[..];
      SetInside(was, first, d, n, k, Add(x[k], y));
      SetInside(SetAt(was, d, k, Add(x[k], y)), first, d, n, h + k, Sub(x[k], y));
      Butterfly(n, i, w, src, s, dst, d, k);
      forall p | 0 <= p <= k
        ensures Combined(dst[..], d, x, ws, p)
      {
        CombinedStep(was, d, x, ws, k, p);
      }
      i := i + 2;
      k := k + 1;
    }
    CombineFrom(x, ws, dst[..], d);
  }

  lemma CombineFrom(x: seq<C>, ws: seq<C>, a: seq<real>, d: nat)
    requires |x| == 2 * |ws| && d + 2 * |x| <= |a|
    requires forall p :: 0 <= p < |ws| ==> Combined(a, d, x, ws, p)
    ensures Points(a, d, |x|) == Combine(x, ws)
  {
    forall p | 0 <= p < |x|
      ensures At(a, d, p) == Combine(x, ws)[p]
    {
      assert Combined(a, d, x, ws, if p < |ws| then p else p - |ws|);
    }
  }

  lemma Sums(a: C, b: C)
    ensures Add(a, b) == C(a.re + b.re, a.im + b.im) && Sub(a, b) == C(a.re - b.re, a.im - b.im)
  {
  }

  // ---------------------------------------------------------------------------------------------
  // Fused kernels: one pass per level over the whole block, swapping two buffers
  // ---------------------------------------------------------------------------------------------

  /** The first block of a level, once written, and the rest of the level. */
  lemma LevelStep(n: nat, x: seq<C>, at: nat)
    requires n > 0 && at < |x| && Whole(n, |x| - at)
    ensures at + n <= |x| && Whole(n, |x| - at - n)
    ensures ReorderLevel(n, x[at..]) == Split(x[at..at + n]) + ReorderLevel(n, x[at + n..])
  {
    assert x[at..][..n] == x[at..at + n] && x[at..][n..] == x[at + n..];
  }

  lemma Extend(a: seq<C>, b: seq<C>, c: seq<C>)
    ensures (a + b) + c == a + (b + c)
  {
  }

  /** One reorder level over `total` points, block by block. */
  method ReorderPass(n: nat, total: nat, src: array<real>, dst: array<real>)
    requires src != dst && src.Length == dst.Length == 2 * total && n > 0 && Whole(n, total)
    modifies dst
    ensures Points(dst[..], 0, total) == ReorderLevel(n, Points(src[..], 0, total))
  {
    hide Split, ReorderLevel, At, Points, Whole, Outside;
    ghost var x := Points(src[..], 0, total);
    var j := 0;
    ghost var at := 0;
    NoPoints(dst[..]);
    assert x[0..] == x;
    while j < 2 * total
      invariant j == 2 * at && at <= total && Whole(n, total - at)
      invariant Points(dst[..], 0, at) + ReorderLevel(n, x[at..]) == ReorderLevel(n, x)
    {
      LevelStep(n, x, at);
      PointsPart(src[..], total, at, n);
      ghost var done := dst[..];
      FFTReorderSimple(n, src, j, dst, j);
      PointsKept(done, dst[..], at, n);
      Extend(Points(done, 0, at), Split(x[at..at + n]), ReorderLevel(n, x[at + n..]));
      j := j + 2 * n;
      at := at + n;
    }
    assert x[total..] == [];
    LevelOfNone(n);
  }

  lemma LevelOfNone(n: nat)
    requires n > 0
    ensures ReorderLevel(n, []) == []
  {
  }

  lemma NoPoints(a: seq<real>)
    ensures Points(a, 0, 0) == []
  {
  }

  lemma PointsPart(a: seq<real>, total: nat, at: nat, n: nat)
    requires 2 * total <= |a| && at + n <= total
    ensures Points(a, 2 * at, n) == Points(a, 0, total)[at..at + n]
  {
  }

  /** Earlier points are kept, and the new block follows them. */
  lemma PointsKept(a: seq<real>, b: seq<real>, at: nat, n: nat)
    requires Outside(b, a, 2 * at, n) && 2 * (at + n) <= |a|
    ensures Points(b, 0, at + n) == Points(a, 0, at) + Points(b, 2 * at, n)
  {
    hide At;
    PointsSame(a, b, 0, at);
    PointsParts(b, 0, at, n);
  }

  /** One combine level over `total` points, block by block. */
  method CombinePass(n: nat, w: array<real>, total: nat, src: array<real>, dst: array<real>)
    requires src != dst && w != dst && src.Length == dst.Length == 2 * total
    requires n == 2 * (n / 2) > 0 && n <= w.Length && Whole(n, total)
    modifies dst
    ensures Points(dst[..], 0, total) == CombineLevel(Points(w[..], 0, n / 2), Points(src[..], 0, total))
  {
    hide Combine, CombineLevel, At, Points, Whole, Outside;
    ghost var x, ws := Points(src[..], 0, total), Points(w[..], 0, n / 2);
    var j := 0;
    ghost var at := 0;
    NoPoints(dst[..]);
    assert x[0..] == x;
    while j < 2 * total
      invariant j == 2 * at && at <= total && Whole(n, total - at)
      invariant Points(dst[..], 0, at) + CombineLevel(ws, x[at..]) == CombineLevel(ws, x)
    {
      CombineLevelStep(n, ws, x, at);
      PointsPart(src[..], total, at, n);
      ghost var done := dst[..];
      CombineDFT(n, w, src, j, dst, j);
      PointsKept(done, dst[..], at, n);
      Extend(Points(done, 0, at), Combine(x[at..at + n], ws), CombineLevel(ws, x[at + n..]));
      j := j + 2 * n;
      at := at + n;
    }
    assert x[total..] == [];
  }

  lemma CombineLevelStep(n: nat, ws: seq<C>, x: seq<C>, at: nat)
    requires n == 2 * |ws| > 0 && at < |x| && Whole(n, |x| - at)
    ensures at + n <= |x| && Whole(n, |x| - at - n)
    ensures CombineLevel(ws, x[at..]) == Combine(x[at..at + n], ws) + CombineLevel(ws, x[at + n..])
  {
    assert x[at..][..n] == x[at..at + n] && x[at..][n..] == x[at + n..];
  }

  /** All reorder levels over one block of the larger of the first and last size. */
  method FFTReorderSimpleFusion(ns: seq<nat>, input: seq<real>) returns (output: seq<real>)
    requires |ns| > 0 && |input| == 2 * Max(ns[0], ns[|ns| - 1]) && LevelsFit(ns, |input| / 2)
    ensures |output| == |input|
    ensures Points(output, 0, |input| / 2) == ReorderChain(ns, Points(input, 0, |input| / 2))
  {
    hide Points, ReorderLevel, Whole;
    var total := Max(ns[0], ns[|ns| - 1]);
    ghost var x := Points(input, 0, total);
    var src, dst := new real[2 * total](i requires 0 <= i < |input| => input[i]), new real[2 * total];
    assert src[..] == input;
    assert ns[0..] == ns;
    for i := 0 to |ns|
      invariant src != dst && src.Length == dst.Length == 2 * total && fresh(src) && fresh(dst)
      invariant LevelsFit(ns[i..], total)
      invariant ReorderChain(ns[i..], Points(src[..], 0, total)) == ReorderChain(ns, x)
    {
      assert ns[i..][0] == ns[i] && ns[i..][1..] == ns[i + 1..];
      ReorderPass(ns[i], total, src, dst);
      src, dst := dst, src;
    }
    assert ns[|ns|..] == [];
    output := src[..];
  }

  /** All combine levels over one block, each with its weight table. */
  method CombineDFTFusion(ns: seq<nat>, tables: seq<array<real>>, input: seq<real>) returns (output: seq<real>)
    requires |ns| == |tables| > 0 && |input| == 2 * Max(ns[0], ns[|ns| - 1]) && LevelsFit(ns, |input| / 2)
    requires forall i :: 0 <= i < |ns| ==> ns[i] == 2 * (ns[i] / 2) && ns[i] <= tables[i].Length
    ensures |output| == |input| && TablesFit(TablesOf(ns, tables), |input| / 2)
    ensures Points(output, 0, |input| / 2) == CombineChain(TablesOf(ns, tables), Points(input, 0, |input| / 2))
  {
    hide Points, CombineLevel, Whole;
    var total := Max(ns[0], ns[|ns| - 1]);
    ghost var x, ws := Points(input, 0, total), TablesOf(ns, tables);
    var src, dst := new real[2 * total](i requires 0 <= i < |input| => input[i]), new real[2 * total];
    assert src[..] == input;
    assert ws[0..] == ws;
    for i := 0 to |ns|
      invariant src != dst && src.Length == dst.Length == 2 * total && fresh(src) && fresh(dst)
      invariant TablesFit(ws[i..], total) && ws == TablesOf(ns, tables)
      invariant CombineChain(ws[i..], Points(src[..], 0, total)) == CombineChain(ws, x)
    {
      assert ws[i..][0] == ws[i] && ws[i..][1..] == ws[i + 1..];
      CombinePass(ns[i], tables[i], total, src, dst);
      src, dst := dst, src;
    }
    assert ws[|ns|..] == [];
    output := src[..];
  }

  /** The weights that the tables hold. */
  ghost function TablesOf(ns: seq<nat>, tables: seq<array<real>>): (ws: seq<seq<C>>)
    requires |ns| == |tables|
    requires forall i :: 0 <= i < |ns| ==> ns[i] == 2 * (ns[i] / 2) && ns[i] <= tables[i].Length
    reads set i | 0 <= i < |tables| :: tables[i]
    ensures |ws| == |ns|
  {
    seq(|ns|, i requires 0 <= i < |ns| reads (if 0 <= i < |tables| then {tables[i]} else {}) => Points(tables[i][..], 0, ns[i] / 2))
  }

  function CombineSizes(k: nat): (ns: seq<nat>)
    ensures |ns| == k && forall i :: 0 <= i < k ==> ns[i] == Pow2(i + 1)
  {
    if k == 0 then [] else CombineSizes(k - 1) + [Pow2(k)]
  }

  lemma Pow2Next(i: nat)
    ensures Pow2(i + 1) == 2 * Pow2(i) && Pow2(i + 1) % 2 == 0 && Pow2(i + 1) / 2 == Pow2(i)
  {
  }

  /** The tables of the benchmark, one per combine size, each from its own root. */
  method BuildTables(k: nat, roots: seq<C>) returns (tables: seq<array<real>>)
    requires |roots| > k
    ensures |tables| == k && forall i :: 0 <= i < k ==>
      tables[i].Length == Pow2(i + 1) && Points(tables[i][..], 0, Pow2(i)) == Weights(roots[i + 1], Pow2(i))
  {
    hide Points, Weights, Pow2;
    tables := [];
    forall i | 0 <= i < k
      ensures Pow2(i + 1) == 2 * Pow2(i)
    {
      Pow2Next(i);
    }
    for i := 0 to k
      invariant |tables| == i && forall j :: 0 <= j < i ==> fresh(tables[j])
      invariant forall j :: 0 <= j < i ==>
        tables[j].Length == Pow2(j + 1) && Points(tables[j][..], 0, Pow2(j)) == Weights(roots[j + 1], Pow2(j))
    {
      Pow2Next(i);
      var w := new real[Pow2(i + 1)];
      InitializeDFTParams(Pow2(i + 1), roots[i + 1], w);
      tables := tables + [w];
    }
  }

  lemma SizesEnds(k: nat)
    requires k >= 2
    ensures var ns := ReorderSizes(k); |ns| > 0 && Max(ns[0], ns[|ns| - 1]) == Pow2(k)
    ensures var ns := CombineSizes(k); Max(ns[0], ns[k - 1]) == Pow2(k)
  {
    Pow2Mono(1, k);
    LastReorder(k);
    Pow2Mono(2, k);
  }

  lemma {:induction false} LastReorder(k: nat)
    requires k >= 2
    ensures var ns := ReorderSizes(k); |ns| > 0 && ns[0] == Pow2(k) && ns[|ns| - 1] == Pow2(2)
  {
    if k > 2 {
      LastReorder(k - 1);
    }
  }

  lemma {:induction false} Pow2Mono(j: nat, k: nat)
    requires j <= k
    ensures Pow2(j) <= Pow2(k)
  {
    if j < k {
      Pow2Mono(j, k - 1);
    }
  }

  lemma {:induction false} TablesAt(k: nat, roots: seq<C>, i: nat)
    requires i < k < |roots|
    ensures |CombineTables(roots, k)| == k && CombineTables(roots, k)[i] == Weights(roots[i + 1], Pow2(i))
  {
    if i < k - 1 {
      TablesAt(k - 1, roots, i);
    } else {
      TablesCount(k - 1, roots);
    }
  }

  lemma {:induction false} TablesCount(k: nat, roots: seq<C>)
    requires k < |roots|
    ensures |CombineTables(roots, k)| == k
  {
    if k > 0 {
      TablesCount(k - 1, roots);
    }
  }

  lemma TablesMatch(k: nat, roots: seq<C>, ws: seq<seq<C>>)
    requires k < |roots| && |ws| == k
    requires forall i :: 0 <= i < k ==> ws[i] == Weights(roots[i + 1], Pow2(i))
    ensures ws == CombineTables(roots, k)
  {
    hide Weights, Pow2;
    forall i | 0 <= i < k
      ensures |CombineTables(roots, k)| == k && ws[i] == CombineTables(roots, k)[i]
    {
      TablesAt(k, roots, i);
    }
    TablesCount(k, roots);
  }

  /** `y` is the discrete Fourier transform of `x` for the root `w`. */
  predicate IsDft(x: seq<C>, y: seq<C>, w: C) {
    |y| == |x| && forall i :: 0 <= i < |x| ==> y[i] == DftSum(x, w, i, |x|)
  }

  lemma FusedIsDft(roots: seq<C>, k: nat, x: seq<C>)
    requires RootsOk(roots, k) && |x| == Pow2(k)
    ensures |roots| > k && LevelsFit(ReorderSizes(k), |x|) && TablesFit(CombineTables(roots, k), |x|)
    ensures IsDft(x, CombineChain(CombineTables(roots, k), ReorderChain(ReorderSizes(k), x)), roots[k])
  {
    SizesFit(k, k);
    RootTablesFit(roots, k, k);
    forall i | 0 <= i < |x|
      ensures Transform(roots, k, x)[i] == DftSum(x, roots[k], i, |x|)
    {
      FftIsDft(roots, k, x, i);
    }
  }

  lemma SizesFitAll(k: nat)
    ensures var ns := CombineSizes(k);
      LevelsFit(ns, Pow2(k)) && forall i :: 0 <= i < k ==> ns[i] == 2 * (ns[i] / 2) && ns[i] / 2 == Pow2(i)
  {
    hide CombineSizes, Pow2, Whole;
    var ns := CombineSizes(k);
    forall i | 0 <= i < k
      ensures ns[i] == 2 * (ns[i] / 2) && ns[i] / 2 == Pow2(i) && Whole(ns[i], Pow2(k))
    {
      Pow2Next(i);
      WholePow2(i + 1, k);
    }
  }

  /** The two fused kernels in a row, on one block of N = 2^k points: the discrete Fourier transform. */
  method FftFusion(k: nat, roots: seq<C>, input: seq<real>) returns (output: seq<real>)
    requires k >= 2 && RootsOk(roots, k) && |input| == 2 * Pow2(k)
    ensures |output| == |input| && IsDft(Points(input, 0, Pow2(k)), Points(output, 0, Pow2(k)), roots[k])
  {
    hide Points, Weights, Whole, IsDft, RootsOk, ReorderSizes, CombineSizes, Pow2, CombineTables, CombineChain,
      ReorderChain;
    ghost var x := Points(input, 0, Pow2(k));
    FusedIsDft(roots, k, x);
    SizesEnds(k);
    SizesFitAll(k);
    var reordered := FFTReorderSimpleFusion(ReorderSizes(k), input);
    var tables := BuildTables(k, roots);
    var ns := CombineSizes(k);
    output := CombineDFTFusion(ns, tables, reordered);
    TablesMatch(k, roots, TablesOf(ns, tables));
  }
}
