/** Small facts of real arithmetic, stated over plain variables so the solver can use them in context. */
module RealArith {

  lemma MulNonNeg(a: real, b: real)
    requires 0.0 <= a && 0.0 <= b
    ensures 0.0 <= a * b
  {
  }

  lemma DivDistributes(a: real, b: real, c: real)
    requires c != 0.0
    ensures (a - b) / c == a / c - b / c
  {
  }

  lemma DivSelf(c: real)
    requires c != 0.0
    ensures c / c == 1.0
  {
  }

  /** `(d - x) / d == 1 - x / d`. */
  lemma OneMinusFraction(x: real, d: real)
    requires d != 0.0
    ensures (d - x) / d == 1.0 - x / d
  {
    DivDistributes(d, x, d);
    DivSelf(d);
  }

  /** `(a * (b / c)) / b == a / c`. */
  lemma ScaledFraction(a: real, b: real, c: real)
    requires b != 0.0 && c != 0.0
    ensures (a * (b / c)) / b == a / c
  {
  }

  lemma FractionInUnit(a: real, c: real)
    requires 0.0 <= a <= c && 0.0 < c
    ensures 0.0 <= a / c <= 1.0
  {
  }

  lemma MulCancel(b: real, c: real)
    requires c != 0.0
    ensures c * (b / c) == b
  {
  }

  lemma SubMul(a: real, b: real, s: real)
    ensures (a - b) * s == a * s - b * s
  {
  }

  /** Linear interpolation with a weight in [0, 1] is monotone in both ends. */
  lemma InterpolationMonotone(e1: real, e2: real, f1: real, f2: real, t: real)
    requires 0.0 <= t <= 1.0 && e1 <= f1 && e2 <= f2
    ensures e1 + (e2 - e1) * t <= f1 + (f2 - f1) * t
  {
    MulNonNeg(f1 - e1, 1.0 - t);
    MulNonNeg(f2 - e2, t);
    assert f1 + (f2 - f1) * t - (e1 + (e2 - e1) * t) == (f1 - e1) * (1.0 - t) + (f2 - e2) * t;
  }

  /** `(b - a) / c == -((a - b) / c)`. */
  lemma NegatedFraction(a: real, b: real, c: real)
    requires c != 0.0
    ensures (b - a) / c == -((a - b) / c)
  {
  }

  lemma MulNegated(a: real, u: real)
    ensures a * (-u) == -(a * u)
  {
  }
}
