/**
 * Distributed-load intensities as exact polynomials: the coefficient sequence
 * p stands for p[0] + p[1]·x + p[2]·x² + … . The integrals that the beam engine
 * takes of a load (its resultant, and its first moment about x = 0) are
 * evaluated in closed form through the antiderivative.
 */
module Polynomial {

  /** Value of the polynomial p at x (Horner's scheme). */
  function Eval(p: seq<real>, x: real): real
    decreases |p|
  {
    if |p| == 0 then 0.0 else p[0] + x * Eval(p[1..], x)
  }

  /** Formal derivative: coefficient i of the result is (i + 1)·p[i + 1]. */
  function Derivative(p: seq<real>): (d: seq<real>)
    ensures |p| > 0 ==> |d| == |p| - 1
  {
    if |p| == 0 then []
    else seq(|p| - 1, i requires 0 <= i < |p| - 1 => p[i + 1] * ((i + 1) as real))
  }

  /** The antiderivative that vanishes at x = 0. */
  function Antiderivative(p: seq<real>): (q: seq<real>)
    ensures |q| == |p| + 1 && q[0] == 0.0
    ensures Eval(q, 0.0) == 0.0
  {
    [0.0] + seq(|p|, i requires 0 <= i < |p| => p[i] / ((i + 1) as real))
  }

  /** Differentiating the antiderivative gives the polynomial back. */
  lemma AntiderivativeInverts(p: seq<real>)
    ensures Derivative(Antiderivative(p)) == p
  {
    var q := Antiderivative(p);
    var d := Derivative(q);
    assert |d| == |p|;
    forall i | 0 <= i < |p| ensures d[i] == p[i] {
      var k := (i + 1) as real;
      assert d[i] == q[i + 1] * k;
      assert q[i + 1] == p[i] / k;
      DivideThenMultiply(p[i], k);
    }
  }

  lemma DivideThenMultiply(a: real, k: real)
    requires k != 0.0
    ensures (a / k) * k == a
  {
  }

  /** Definite integral of p over [a, b]. */
  function Integral(p: seq<real>, a: real, b: real): (r: real)
    ensures a == b ==> r == 0.0
  {
    Eval(Antiderivative(p), b) - Eval(Antiderivative(p), a)
  }

  /** The moment-arm weighting x·p(x), as a shift of the coefficients. */
  function MulX(p: seq<real>): (r: seq<real>)
    ensures |r| == |p| + 1 && r[0] == 0.0
  {
    [0.0] + p
  }

  /** The shifted coefficients evaluate to x·p(x). */
  lemma MulXEval(p: seq<real>, x: real)
    ensures Eval(MulX(p), x) == x * Eval(p, x)
  {
    assert MulX(p)[1..] == p;
  }

  /** Integrals over adjacent intervals add up. */
  lemma IntegralAdditive(p: seq<real>, a: real, b: real, c: real)
    ensures Integral(p, a, b) + Integral(p, b, c) == Integral(p, a, c)
  {
  }

  /** A constant load w over [a, b] has resultant w·(b − a). */
  lemma ConstantResultant(w: real, a: real, b: real)
    ensures Integral([w], a, b) == w * (b - a)
  {
    var q := Antiderivative([w]);
    assert |q| == 2 && q[1] == w / 1.0;
    assert q == [0.0, w];
    forall x: real ensures Eval(q, x) == w * x {
      assert q[1..] == [w] && q[1..][1..] == [];
      assert Eval(q[1..], x) == w + x * Eval([], x);
    }
  }

  /**
   * The first moment of a constant load w over [a, b] is its resultant acting at
   * the midpoint (a + b) / 2.
   */
  lemma ConstantFirstMoment(w: real, a: real, b: real)
    ensures Integral(MulX([w]), a, b) == Integral([w], a, b) * (a + b) / 2.0
  {
    ConstantResultant(w, a, b);
    var q := Antiderivative(MulX([w]));
    assert MulX([w]) == [0.0, w];
    assert |q| == 3 && q[1] == 0.0 / 1.0 && q[2] == w / 2.0;
    assert q == [0.0, 0.0, w / 2.0];
    forall x: real ensures Eval(q, x) == w / 2.0 * x * x {
      assert q[1..] == [0.0, w / 2.0] && q[1..][1..] == [w / 2.0] && q[1..][1..][1..] == [];
      assert Eval(q[1..][1..], x) == w / 2.0 + x * Eval([], x);
      assert Eval(q[1..], x) == 0.0 + x * Eval(q[1..][1..], x);
    }
    assert b * b - a * a == (b - a) * (a + b);
  }
}
