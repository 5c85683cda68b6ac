/** What the FFT kernels compute, on streams of points, and why it is the discrete Fourier transform.

    A kernel of size n turns each run of n points into another; a pipeline (or a fused kernel) chains
    sizes N, N/2, ..., 4 of reordering and 2, 4, ..., N of combining. */
module Fft {
  import opened Complex

  function Pow2(k: nat): (p: nat)
    ensures p > 0
  {
    if k == 0 then 1 else 2 * Pow2(k - 1)
  }

  // ---------------------------------------------------------------------------------------------
  // One-level kernels on one block, then on a stream of blocks
  // ---------------------------------------------------------------------------------------------

  function Evens(x: seq<C>): seq<C> {
    if |x| == 0 then [] else if |x| == 1 then [x[0]] else [x[0]] + Evens(x[2..])
  }

  function Odds(x: seq<C>): seq<C> {
    if |x| <= 1 then [] else [x[1]] + Odds(x[2..])
  }

  /** FFTReorderSimple: the points at even places, then those at odd places. */
  function Split(x: seq<C>): seq<C> { Evens(x) + Odds(x) }

  /** The weight table for a root `w`. */
  function Weights(w: C, n: nat): (ws: seq<C>)
    ensures |ws| == n
  {
    seq(n, i requires 0 <= i => Pow(w, i))
  }

  /** CombineDFT: butterflies between the two halves of a block. */
  function Combine(x: seq<C>, weights: seq<C>): (r: seq<C>)
    requires |x| == 2 * |weights|
    ensures |r| == |x|
  {
    var h := |weights|;
    seq(2 * h, i requires 0 <= i < 2 * h =>
      if i < h then Add(x[i], Mul(x[h + i], weights[i])) else Sub(x[i - h], Mul(x[i], weights[i - h])))
  }

  /** `total` is a whole number of blocks of `n`. */
  predicate Whole(n: nat, total: nat)
    requires n > 0
  {
    total == 0 || (total >= n && Whole(n, total - n))
  }

  function ReorderLevel(n: nat, x: seq<C>): seq<C>
    requires n > 0 && Whole(n, |x|)
  {
    if x == [] then [] else Split(x[..n]) + ReorderLevel(n, x[n..])
  }

  function CombineLevel(weights: seq<C>, x: seq<C>): (r: seq<C>)
    requires |weights| > 0 && Whole(2 * |weights|, |x|)
    ensures |r| == |x|
  {
    if x == [] then [] else Combine(x[..2 * |weights|], weights) + CombineLevel(weights, x[2 * |weights|..])
  }

  lemma {:induction false} SplitLength(x: seq<C>)
    ensures |Evens(x)| == (|x| + 1) / 2 && |Odds(x)| == |x| / 2 && |Split(x)| == |x|
    decreases |x|
  {
    if |x| > 1 {
      SplitLength(x[2..]);
    }
  }

  lemma {:induction false} LevelLength(n: nat, x: seq<C>)
    requires n > 0 && Whole(n, |x|)
    ensures |ReorderLevel(n, x)| == |x|
    decreases |x|
  {
    if x != [] {
      SplitLength(x[..n]);
      LevelLength(n, x[n..]);
    }
  }

  // ---------------------------------------------------------------------------------------------
  // Chains of levels
  // ---------------------------------------------------------------------------------------------

  /** Every level size divides the stream. */
  predicate LevelsFit(ns: seq<nat>, total: nat) {
    forall i :: 0 <= i < |ns| ==> ns[i] > 0 && Whole(ns[i], total)
  }

  /** The pipeline of one-level reorder kernels of sizes `ns`. */
  function ReorderChain(ns: seq<nat>, x: seq<C>): (r: seq<C>)
    requires LevelsFit(ns, |x|)
    ensures |r| == |x|
  {
    if ns == [] then x
    else
      LevelLength(ns[0], x);
      ReorderChain(ns[1..], ReorderLevel(ns[0], x))
  }

  predicate TablesFit(tables: seq<seq<C>>, total: nat) {
    forall i :: 0 <= i < |tables| ==> |tables[i]| > 0 && Whole(2 * |tables[i]|, total)
  }

  /** The pipeline of one-level combine kernels with the given weight tables. */
  function CombineChain(tables: seq<seq<C>>, x: seq<C>): (r: seq<C>)
    requires TablesFit(tables, |x|)
    ensures |r| == |x|
  {
    if tables == [] then x else CombineChain(tables[1..], CombineLevel(tables[0], x))
  }

  // ---------------------------------------------------------------------------------------------
  // Blocks of a power of two
  // ---------------------------------------------------------------------------------------------

  lemma {:induction false} WholeAdd(n: nat, a: nat, b: nat)
    requires n > 0 && Whole(n, a) && Whole(n, b)
    ensures Whole(n, a + b)
    decreases a
  {
    if a > 0 {
      WholeAdd(n, a - n, b);
    }
  }

  lemma {:induction false} WholePow2(j: nat, l: nat)
    requires j <= l
    ensures Whole(Pow2(j), Pow2(l))
    decreases l
  {
    if j == l {
      assert Whole(Pow2(j), 0);
    } else {
      WholePow2(j, l - 1);
      WholeAdd(Pow2(j), Pow2(l - 1), Pow2(l - 1));
    }
  }

  lemma CutSum(a: seq<C>, b: seq<C>, n: nat)
    requires n <= |a|
    ensures (a + b)[..n] == a[..n] && (a + b)[n..] == a[n..] + b
  {
  }

  lemma SumAssoc(a: seq<C>, b: seq<C>, c: seq<C>)
    ensures (a + b) + c == a + (b + c)
  {
  }

  /** A level takes one block at a time. */
  lemma LevelFirst(n: nat, x: seq<C>)
    requires n > 0 && Whole(n, |x|) && x != []
    ensures n <= |x| && Whole(n, |x[n..]|) && ReorderLevel(n, x) == Split(x[..n]) + ReorderLevel(n, x[n..])
  {
    hide Split;
  }

  /** A level works on the parts of a stream separately. */
  lemma {:induction false} ReorderLevelParts(n: nat, a: seq<C>, b: seq<C>)
    requires n > 0 && Whole(n, |a|) && Whole(n, |b|)
    ensures Whole(n, |a + b|) && ReorderLevel(n, a + b) == ReorderLevel(n, a) + ReorderLevel(n, b)
    decreases |a|
  {
    WholeAdd(n, |a|, |b|);
    if a == [] {
      assert a + b == b;
    } else {
      hide ReorderLevel, Split, Whole;
      LevelFirst(n, a);
      LevelFirst(n, a + b);
      CutSum(a, b, n);
      ReorderLevelParts(n, a[n..], b);
      SumAssoc(Split(a[..n]), ReorderLevel(n, a[n..]), ReorderLevel(n, b));
    }
  }

  lemma {:induction false} CombineLevelParts(weights: seq<C>, a: seq<C>, b: seq<C>)
    requires |weights| > 0 && Whole(2 * |weights|, |a|) && Whole(2 * |weights|, |b|)
    ensures Whole(2 * |weights|, |a + b|) &&
      CombineLevel(weights, a + b) == CombineLevel(weights, a) + CombineLevel(weights, b)
    decreases |a|
  {
    hide Combine;
    var n := 2 * |weights|;
    WholeAdd(n, |a|, |b|);
    if a == [] {
      assert a + b == b;
    } else {
      CombineLevelParts(weights, a[n..], b);
      assert (a + b)[..n] == a[..n] && (a + b)[n..] == a[n..] + b;
    }
  }

  lemma {:induction false} ReorderChainParts(ns: seq<nat>, a: seq<C>, b: seq<C>)
    requires LevelsFit(ns, |a|) && LevelsFit(ns, |b|)
    ensures LevelsFit(ns, |a + b|) && ReorderChain(ns, a + b) == ReorderChain(ns, a) + ReorderChain(ns, b)
    decreases |ns|
  {
    forall i | 0 <= i < |ns|
      ensures Whole(ns[i], |a + b|)
    {
      WholeAdd(ns[i], |a|, |b|);
    }
    if ns != [] {
      ReorderLevelParts(ns[0], a, b);
      LevelLength(ns[0], a);
      LevelLength(ns[0], b);
      ReorderChainParts(ns[1..], ReorderLevel(ns[0], a), ReorderLevel(ns[0], b));
    }
  }

  lemma {:induction false} CombineChainParts(tables: seq<seq<C>>, a: seq<C>, b: seq<C>)
    requires TablesFit(tables, |a|) && TablesFit(tables, |b|)
    ensures TablesFit(tables, |a + b|) && CombineChain(tables, a + b) == CombineChain(tables, a) + CombineChain(tables, b)
    decreases |tables|
  {
    forall i | 0 <= i < |tables|
      ensures Whole(2 * |tables[i]|, |a + b|)
    {
      WholeAdd(2 * |tables[i]|, |a|, |b|);
    }
    if tables != [] {
      CombineLevelParts(tables[0], a, b);
      CombineChainParts(tables[1..], CombineLevel(tables[0], a), CombineLevel(tables[0], b));
    }
  }

  lemma {:induction false} CombineChainLast(tables: seq<seq<C>>, last: seq<C>, x: seq<C>)
    requires TablesFit(tables + [last], |x|)
    ensures TablesFit(tables, |x|) && |last| > 0 && Whole(2 * |last|, |x|)
    ensures CombineChain(tables + [last], x) == CombineLevel(last, CombineChain(tables, x))
    decreases |tables|
  {
    var all := tables + [last];
    assert all[|tables|] == last;
    assert forall i :: 0 <= i < |tables| ==> all[i] == tables[i];
    if tables == [] {
      assert all[1..] == [];
    } else {
      assert all[1..] == tables[1..] + [last];
      CombineChainLast(tables[1..], last, CombineLevel(tables[0], x));
    }
  }

  // ---------------------------------------------------------------------------------------------
  // The sizes and tables of the benchmark: N, N/2, ..., 4 and 2, 4, ..., N
  // ---------------------------------------------------------------------------------------------

  function ReorderSizes(k: nat): seq<nat> {
    if k < 2 then [] else [Pow2(k)] + ReorderSizes(k - 1)
  }

  /** `roots[l]` is the root of unity of order Pow2(l): w_2 is -1 and squaring w_n gives w_(n/2). */
  predicate RootsOk(roots: seq<C>, k: nat) {
    && |roots| > k
    && (k >= 1 ==> roots[1] == Neg(ONE))
    && forall l :: 2 <= l <= k ==> Squares(roots, l)
  }

  predicate Squares(roots: seq<C>, l: nat)
    requires 1 <= l < |roots|
  {
    Mul(roots[l], roots[l]) == roots[l - 1]
  }

  function CombineTables(roots: seq<C>, k: nat): seq<seq<C>>
    requires |roots| > k
  {
    if k == 0 then [] else CombineTables(roots, k - 1) + [Weights(roots[k], Pow2(k - 1))]
  }

  lemma {:induction false} SizesFit(j: nat, l: nat)
    requires j <= l
    ensures LevelsFit(ReorderSizes(j), Pow2(l))
    decreases j
  {
    if j >= 2 {
      WholePow2(j, l);
      SizesFit(j - 1, l);
    }
  }

  lemma {:induction false} RootTablesFit(roots: seq<C>, j: nat, l: nat)
    requires j < |roots| && j <= l
    ensures TablesFit(CombineTables(roots, j), Pow2(l))
    decreases j
  {
    if j > 0 {
      WholePow2(j, l);
      RootTablesFit(roots, j - 1, l);
    }
  }

  /** The whole transform as the pipeline computes it. */
  function Transform(roots: seq<C>, k: nat, x: seq<C>): (r: seq<C>)
    requires |roots| > k && |x| == Pow2(k)
    ensures |r| == |x|
  {
    SizesFit(k, k);
    RootTablesFit(roots, k, k);
    CombineChain(CombineTables(roots, k), ReorderChain(ReorderSizes(k), x))
  }

  // ---------------------------------------------------------------------------------------------
  // Divide and conquer
  // ---------------------------------------------------------------------------------------------

  function BitSort(k: nat, x: seq<C>): (r: seq<C>)
    requires |x| == Pow2(k)
    ensures |r| == |x|
  {
    if k == 0 then x
    else
      SplitLength(x);
      BitSort(k - 1, Evens(x)) + BitSort(k - 1, Odds(x))
  }

  lemma PairSorted(x: seq<C>)
    requires |x| == Pow2(1)
    ensures |x| == 2 && BitSort(1, x) == x && ReorderSizes(1) == []
  {
    assert Pow2(0) == 1 && |x| == 2;
    var none := x[2..];
    assert none == [] && Evens(none) == [] && Odds(none) == [];
    assert Evens(x) == [x[0]] + [] && Odds(x) == [x[1]] + [];
    var e, o := Evens(x), Odds(x);
    assert BitSort(0, e) == e && BitSort(0, o) == o;
    assert BitSort(1, x) == BitSort(0, e) + BitSort(0, o);
  }

  /** The first level splits the whole block; the others are the levels of half the size. */
  lemma FirstReorder(k: nat, x: seq<C>)
    requires k >= 2 && |x| == Pow2(k)
    ensures |Split(x)| == |x| && LevelsFit(ReorderSizes(k), |x|) && LevelsFit(ReorderSizes(k - 1), |x|)
    ensures ReorderChain(ReorderSizes(k), x) == ReorderChain(ReorderSizes(k - 1), Split(x))
  {
    SizesFit(k, k);
    SizesFit(k - 1, k);
    SplitLength(x);
    LevelFirst(Pow2(k), x);
    hide Split, Pow2, Whole;
    assert x[..Pow2(k)] == x && x[Pow2(k)..] == [];
    assert ReorderLevel(Pow2(k), x) == Split(x);
    assert ReorderSizes(k)[0] == Pow2(k) && ReorderSizes(k)[1..] == ReorderSizes(k - 1);
  }

  lemma {:induction false} ReorderIsBitSort(k: nat, x: seq<C>)
    requires |x| == Pow2(k)
    ensures LevelsFit(ReorderSizes(k), |x|) && ReorderChain(ReorderSizes(k), x) == BitSort(k, x)
  {
    if k == 1 {
      PairSorted(x);
    } else if k >= 2 {
      FirstReorder(k, x);
      SplitLength(x);
      hide ReorderSizes, ReorderChain, ReorderLevel, Whole;
      var e, o := Evens(x), Odds(x);
      SizesFit(k - 1, k - 1);
      ReorderChainParts(ReorderSizes(k - 1), e, o);
      ReorderIsBitSort(k - 1, e);
      ReorderIsBitSort(k - 1, o);
    }
  }

  /** Reordering the whole is reordering the even and the odd points. */
  lemma ReorderHalves(k: nat, x: seq<C>)
    requires k >= 1 && |x| == Pow2(k)
    ensures |Evens(x)| == |Odds(x)| == Pow2(k - 1)
    ensures LevelsFit(ReorderSizes(k), |x|) && LevelsFit(ReorderSizes(k - 1), Pow2(k - 1))
    ensures ReorderChain(ReorderSizes(k), x) ==
      ReorderChain(ReorderSizes(k - 1), Evens(x)) + ReorderChain(ReorderSizes(k - 1), Odds(x))
  {
    hide ReorderChain, ReorderSizes, LevelsFit;
    SplitLength(x);
    ReorderIsBitSort(k, x);
    ReorderIsBitSort(k - 1, Evens(x));
    ReorderIsBitSort(k - 1, Odds(x));
  }

  /** Combining the whole is combining both halves and then the results. */
  lemma CombineHalves(roots: seq<C>, k: nat, a: seq<C>, b: seq<C>)
    requires 1 <= k < |roots| && |a| == |b| == Pow2(k - 1)
    ensures TablesFit(CombineTables(roots, k), Pow2(k)) && TablesFit(CombineTables(roots, k - 1), Pow2(k - 1))
    ensures CombineChain(CombineTables(roots, k), a + b) ==
      Combine(CombineChain(CombineTables(roots, k - 1), a) + CombineChain(CombineTables(roots, k - 1), b),
              Weights(roots[k], Pow2(k - 1)))
  {
    hide Combine, Weights, CombineLevel, TablesFit, CombineChain;
    var tables, last := CombineTables(roots, k - 1), Weights(roots[k], Pow2(k - 1));
    RootTablesFit(roots, k, k);
    RootTablesFit(roots, k - 1, k - 1);
    CombineChainLast(tables, last, a + b);
    CombineChainParts(tables, a, b);
    OneBlock(last, CombineChain(tables, a + b));
  }

  lemma OneBlock(weights: seq<C>, y: seq<C>)
    requires |weights| > 0 && |y| == 2 * |weights|
    ensures Whole(2 * |weights|, |y|) && CombineLevel(weights, y) == Combine(y, weights)
  {
    hide Combine;
    assert Whole(2 * |weights|, 0);
    assert y[..2 * |weights|] == y && y[2 * |weights|..] == [];
  }

  /** The transform of the even and of the odd points, combined. */
  lemma FftHalves(roots: seq<C>, k: nat, x: seq<C>)
    requires 1 <= k < |roots| && |x| == Pow2(k)
    ensures |Evens(x)| == |Odds(x)| == Pow2(k - 1)
    ensures Transform(roots, k, x) ==
      Combine(Transform(roots, k - 1, Evens(x)) + Transform(roots, k - 1, Odds(x)), Weights(roots[k], Pow2(k - 1)))
  {
    hide Combine, Weights, CombineTables, ReorderSizes, TablesFit, LevelsFit;
    ReorderHalves(k, x);
    var a, b := ReorderChain(ReorderSizes(k - 1), Evens(x)), ReorderChain(ReorderSizes(k - 1), Odds(x));
    CombineHalves(roots, k, a, b);
  }

  // ---------------------------------------------------------------------------------------------
  // The discrete Fourier transform
  // ---------------------------------------------------------------------------------------------

  /** The sum of x[j] * w^(j * i) over j below `m`. */
  function DftSum(x: seq<C>, w: C, i: nat, m: nat): C
    requires m <= |x|
  {
    if m == 0 then ZERO else Add(DftSum(x, w, i, m - 1), Mul(x[m - 1], Pow(w, (m - 1) * i)))
  }

  /** The polynomial with coefficients `x` at `z`. */
  function Eval(x: seq<C>, z: C): C {
    if x == [] then ZERO else Add(x[0], Mul(z, Eval(x[1..], z)))
  }

  lemma {:induction false} EvalAppend(x: seq<C>, a: C, z: C)
    ensures Eval(x + [a], z) == Add(Eval(x, z), Mul(a, Pow(z, |x|)))
    decreases |x|
  {
    hide Add, Mul;
    if x == [] {
      assert (x + [a])[1..] == [];
      Units(a);
      Units(z);
    } else {
      assert (x + [a])[1..] == x[1..] + [a];
      EvalAppend(x[1..], a, z);
      var tail, p := Eval(x[1..], z), Pow(z, |x| - 1);
      Distrib(z, tail, Mul(a, p));
      AddAssoc(x[0], Mul(z, tail), Mul(z, Mul(a, p)));
      MulComm(z, Mul(a, p));
      MulAssoc(a, p, z);
    }
  }

  lemma {:induction false} SumIsEval(x: seq<C>, w: C, i: nat, m: nat)
    requires m <= |x|
    ensures DftSum(x, w, i, m) == Eval(x[..m], Pow(w, i))
    decreases m
  {
    hide Add, Mul;
    if m > 0 {
      SumIsEval(x, w, i, m - 1);
      assert x[..m] == x[..m - 1] + [x[m - 1]];
      EvalAppend(x[..m - 1], x[m - 1], Pow(w, i));
      assert (m - 1) * i == i * (m - 1);
      PowMul(w, i, m - 1);
    }
  }

  /** Even and odd coefficients: x(z) = e(z^2) + z * o(z^2). */
  lemma {:induction false} EvalHalves(x: seq<C>, z: C)
    ensures Eval(x, z) == Add(Eval(Evens(x), Mul(z, z)), Mul(z, Eval(Odds(x), Mul(z, z))))
    decreases |x|
  {
    hide Add, Mul;
    var q := Mul(z, z);
    if x == [] {
      Units(z);
      Units(ZERO);
    } else if |x| == 1 {
      Units(z);
      Units(q);
      Units(x[0]);
      assert Evens(x)[1..] == [];
    } else {
      var r := x[2..];
      EvalHalves(r, z);
      assert x[1..][1..] == r;
      assert Evens(x)[1..] == Evens(r) && Odds(x)[1..] == Odds(r);
      var e, o := Eval(Evens(r), q), Eval(Odds(r), q);
      var a, b := x[0], x[1];
      // a + z * (b + z * (e + z * o)) = (a + q * e) + z * (b + q * o)
      var t := Add(e, Mul(z, o));
      Distrib(z, b, Mul(z, t));
      MulAssoc(z, z, t);
      Distrib(q, e, Mul(z, o));
      MulAssoc(q, z, o);
      MulComm(q, z);
      MulAssoc(z, q, o);
      Distrib(z, b, Mul(q, o));
      AddAssoc(a, Mul(z, b), Add(Mul(q, e), Mul(q, Mul(z, o))));
      AddSwap(a, Mul(z, b), Mul(q, e), Mul(q, Mul(z, o)));
    }
  }

  /** w_n^(n/2) = -1. */
  lemma {:induction false} HalfTurn(roots: seq<C>, l: nat)
    requires 1 <= l < |roots| && RootsOk(roots, l)
    ensures Pow(roots[l], Pow2(l - 1)) == Neg(ONE)
  {
    hide Mul, Neg;
    if l == 1 {
      Units(roots[1]);
      assert Pow(roots[1], 1) == Mul(Pow(roots[1], 0), roots[1]);
    } else {
      HalfTurn(roots, l - 1);
      Square(roots[l]);
      assert Squares(roots, l);
      PowMul(roots[l], 2, Pow2(l - 2));
    }
  }

  lemma Square(z: C)
    ensures Pow(z, 2) == Mul(z, z)
  {
    hide Mul;
    assert Pow(z, 1) == Mul(Pow(z, 0), z);
    Units(z);
  }

  /** (w^i)^2 = (w^2)^i. */
  lemma PowSquare(w: C, i: nat)
    ensures Mul(Pow(w, i), Pow(w, i)) == Pow(Mul(w, w), i)
  {
    hide Mul;
    PowAdd(w, i, i);
    Square(w);
    PowMul(w, 2, i);
  }

  lemma SquareRoot(roots: seq<C>, k: nat, j: nat)
    requires 1 <= k < |roots| && RootsOk(roots, k) && j < Pow2(k - 1)
    ensures Pow(roots[k - 1], j) == Mul(Pow(roots[k], j), Pow(roots[k], j))
  {
    hide Mul, Neg;
    if k == 1 {
      Units(ONE);
    } else {
      assert Squares(roots, k);
      PowSquare(roots[k], j);
    }
  }

  lemma FftOfOne(roots: seq<C>, x: seq<C>)
    requires |roots| > 0 && |x| == 1
    ensures Transform(roots, 0, x) == x
  {
  }

  /** The transform, stated for polynomials: point `i` is x(w^i). */
  lemma {:induction false} FftIsEval(roots: seq<C>, k: nat, x: seq<C>, i: nat)
    requires |x| == Pow2(k) && RootsOk(roots, k) && i < |x|
    ensures Transform(roots, k, x)[i] == Eval(x, Pow(roots[k], i))
    decreases k
  {
    hide Add, Mul, Neg, Sub, Transform, ReorderSizes, CombineTables;
    if k == 0 {
      FftOfOne(roots, x);
      assert x[1..] == [];
      Units(x[0]);
      Units(Pow(roots[0], i));
    } else {
      var h := Pow2(k - 1);
      FftHalves(roots, k, x);
      var e, o, w := Evens(x), Odds(x), roots[k];
      var j := if i < h then i else i - h;
      FftIsEval(roots, k - 1, e, j);
      FftIsEval(roots, k - 1, o, j);
      SquareRoot(roots, k, j);
      EvalHalves(x, Pow(w, i));
      var p, ye, yo := Pow(w, j), Transform(roots, k - 1, e)[j], Transform(roots, k - 1, o)[j];
      if i < h {
        MulComm(yo, p);
      } else {
        PowAdd(w, j, h);
        HalfTurn(roots, k);
        MinusOne(p);
        NegSquare(p);
        SubProduct(ye, yo, p);
      }
    }
  }

  /** For every power of two N, every input of N points and every choice of roots with w_2 = -1 and
      w_n^2 = w_(n/2): reordering at sizes N, N/2, ..., 4 and combining at sizes 2, 4, ..., N
      yields the discrete Fourier transform. */
  lemma FftIsDft(roots: seq<C>, k: nat, x: seq<C>, i: nat)
    requires |x| == Pow2(k) && RootsOk(roots, k) && i < |x|
    ensures Transform(roots, k, x)[i] == DftSum(x, roots[k], i, |x|)
  {
    hide Add, Mul, Transform;
    FftIsEval(roots, k, x, i);
    SumIsEval(x, roots[k], i, |x|);
    assert x[..|x|] == x;
  }

  // ---------------------------------------------------------------------------------------------
  // The reordering is the bit reversal
  // ---------------------------------------------------------------------------------------------

  /** The number with these bits, lowest first. */
  function Value(bits: seq<bool>): nat {
    if bits == [] then 0 else (if bits[0] then 1 else 0) + 2 * Value(bits[1..])
  }

  function Bits(k: nat, i: nat): (bits: seq<bool>)
    ensures |bits| == k
  {
    if k == 0 then [] else [i % 2 == 1] + Bits(k - 1, i / 2)
  }

  function Reversed(bits: seq<bool>): (r: seq<bool>)
    ensures |r| == |bits|
  {
    if bits == [] then [] else Reversed(bits[1..]) + [bits[0]]
  }

  lemma {:induction false} ValueBound(bits: seq<bool>)
    ensures Value(bits) < Pow2(|bits|)
    decreases |bits|
  {
    if bits != [] {
      ValueBound(bits[1..]);
    }
  }

  lemma {:induction false} BitsValue(k: nat, i: nat)
    requires i < Pow2(k)
    ensures Value(Bits(k, i)) == i
  {
    if k > 0 {
      BitsValue(k - 1, i / 2);
      assert Bits(k, i)[1..] == Bits(k - 1, i / 2);
    }
  }

  lemma {:induction false} ValueTop(low: seq<bool>, top: bool)
    ensures Value(low + [top]) == Value(low) + if top then Pow2(|low|) else 0
    decreases |low|
  {
    if low == [] {
      assert ([] + [top])[1..] == [];
    } else {
      assert (low + [top])[1..] == low[1..] + [top];
      ValueTop(low[1..], top);
    }
  }

  lemma {:induction false} ReversedTop(low: seq<bool>, top: bool)
    ensures Reversed(low + [top]) == [top] + Reversed(low)
    decreases |low|
  {
    if low != [] {
      assert (low + [top])[1..] == low[1..] + [top];
      ReversedTop(low[1..], top);
    }
  }

  lemma {:induction false} ReversedTwice(bits: seq<bool>)
    ensures Reversed(Reversed(bits)) == bits
    decreases |bits|
  {
    if bits != [] {
      ReversedTop(Reversed(bits[1..]), bits[0]);
      ReversedTwice(bits[1..]);
    }
  }

  lemma {:induction false} HalvesAt(x: seq<C>, i: nat)
    ensures |Evens(x)| == (|x| + 1) / 2 && |Odds(x)| == |x| / 2
    ensures 2 * i < |x| ==> Evens(x)[i] == x[2 * i]
    ensures 2 * i + 1 < |x| ==> Odds(x)[i] == x[2 * i + 1]
    decreases i
  {
    SplitLength(x);
    if i > 0 && 2 * i < |x| {
      HalvesAt(x[2..], i - 1);
    }
  }

  /** The point at the place with given bits comes from the place with the bits reversed. */
  lemma {:induction false} BitSortAt(k: nat, x: seq<C>, bits: seq<bool>)
    requires |x| == Pow2(k) && |bits| == k
    ensures Value(bits) < |x| && Value(Reversed(bits)) < |x|
    ensures BitSort(k, x)[Value(bits)] == x[Value(Reversed(bits))]
  {
    ValueBound(bits);
    ValueBound(Reversed(bits));
    if k > 0 {
      var low, top := bits[..k - 1], bits[k - 1];
      assert bits == low + [top];
      ValueTop(low, top);
      ReversedTop(low, top);
      assert ([top] + Reversed(low))[1..] == Reversed(low);
      SplitLength(x);
      HalvesAt(x, Value(Reversed(low)));
      BitSortAt(k - 1, if top then Odds(x) else Evens(x), low);
    }
  }

  /** The chained reorder kernels of sizes N, N/2, ..., 4 are the bit reversal permutation. */
  lemma ReorderIsBitReversal(k: nat, x: seq<C>, bits: seq<bool>)
    requires |x| == Pow2(k) && |bits| == k
    ensures LevelsFit(ReorderSizes(k), |x|) && Value(bits) < |x| && Value(Reversed(bits)) < |x|
    ensures ReorderChain(ReorderSizes(k), x)[Value(bits)] == x[Value(Reversed(bits))]
  {
    ReorderIsBitSort(k, x);
    BitSortAt(k, x, bits);
  }

  /** Reordering twice restores the input. */
  lemma ReorderTwice(k: nat, x: seq<C>)
    requires |x| == Pow2(k)
    ensures LevelsFit(ReorderSizes(k), |x|)
    ensures ReorderChain(ReorderSizes(k), ReorderChain(ReorderSizes(k), x)) == x
  {
    ReorderIsBitSort(k, x);
    var y := BitSort(k, x);
    ReorderIsBitSort(k, y);
    forall i | 0 <= i < |x|
      ensures BitSort(k, y)[i] == x[i]
    {
      var bits := Bits(k, i);
      BitsValue(k, i);
      BitSortAt(k, y, bits);
      BitSortAt(k, x, Reversed(bits));
      ReversedTwice(bits);
    }
  }
}
