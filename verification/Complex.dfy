/** Exact complex arithmetic: what the butterflies compute when rounding is left aside. */
module Complex {

  datatype C = C(re: real, im: real)

  const ZERO := C(0.0, 0.0)
  const ONE := C(1.0, 0.0)

  function Add(a: C, b: C): C { C(a.re + b.re, a.im + b.im) }

  function Sub(a: C, b: C): C { C(a.re - b.re, a.im - b.im) }

  function Mul(a: C, b: C): C { C(a.re * b.re - a.im * b.im, a.re * b.im + a.im * b.re) }

  function Neg(a: C): C { C(-a.re, -a.im) }

  function Pow(z: C, e: nat): C {
    if e == 0 then ONE else Mul(Pow(z, e - 1), z)
  }

  lemma MulAssoc(a: C, b: C, c: C)
    ensures Mul(Mul(a, b), c) == Mul(a, Mul(b, c))
  {
    var x, y := Mul(Mul(a, b), c), Mul(a, Mul(b, c));
    assert x.re == a.re * b.re * c.re - a.im * b.im * c.re - a.re * b.im * c.im - a.im * b.re * c.im;
    assert x.im == a.re * b.re * c.im - a.im * b.im * c.im + a.re * b.im * c.re + a.im * b.re * c.re;
  }

  lemma MulComm(a: C, b: C)
    ensures Mul(a, b) == Mul(b, a)
  {
  }

  lemma Distrib(a: C, b: C, c: C)
    ensures Mul(a, Add(b, c)) == Add(Mul(a, b), Mul(a, c))
  {
  }

  lemma Units(a: C)
    ensures Mul(ONE, a) == a && Mul(a, ONE) == a && Mul(a, ZERO) == ZERO && Add(a, ZERO) == a && Add(ZERO, a) == a
  {
  }

  lemma AddAssoc(a: C, b: C, c: C)
    ensures Add(Add(a, b), c) == Add(a, Add(b, c))
  {
  }

  lemma AddSwap(a: C, b: C, c: C, d: C)
    ensures Add(Add(a, b), Add(c, d)) == Add(Add(a, c), Add(b, d))
  {
  }

  lemma MinusOne(p: C)
    ensures Mul(p, Neg(ONE)) == Neg(p)
  {
  }

  lemma NegSquare(p: C)
    ensures Mul(Neg(p), Neg(p)) == Mul(p, p)
  {
  }

  lemma SubProduct(a: C, b: C, p: C)
    ensures Sub(a, Mul(b, p)) == Add(a, Mul(Neg(p), b))
  {
  }

  lemma {:induction false} PowAdd(z: C, a: nat, b: nat)
    ensures Pow(z, a + b) == Mul(Pow(z, a), Pow(z, b))
    decreases b
  {
    hide Mul;
    if b == 0 {
      Units(Pow(z, a));
    } else {
      PowAdd(z, a, b - 1);
      MulAssoc(Pow(z, a), Pow(z, b - 1), z);
    }
  }

  lemma {:induction false} PowMul(z: C, a: nat, b: nat)
    ensures Pow(z, a * b) == Pow(Pow(z, a), b)
    decreases b
  {
    hide Mul;
    if b > 0 {
      PowMul(z, a, b - 1);
      assert a * b == a * (b - 1) + a;
      PowAdd(z, a * (b - 1), a);
    } else {
      assert a * b == 0;
    }
  }
}
