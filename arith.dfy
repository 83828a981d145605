/** `Math.abs`, and small facts about products of reals that the solver needs spelled out. */
module RealArith {

  /** `Math.abs`. */
  function Abs(x: real): (r: real)
    ensures r >= 0.0 && (r == x || r == -x)
  {
    if x < 0.0 then -x else x
  }

  lemma MulPos(a: real, b: real)
    requires a > 0.0 && b > 0.0
    ensures a * b > 0.0
  {
  }

  lemma MulNonNeg(a: real, b: real)
    requires a >= 0.0 && b >= 0.0
    ensures a * b >= 0.0
  {
  }

  /**
   * A product behind a function: the solver relates `Mul(x, x)` terms more
   * reliably than raw squares coming from different unfoldings.
   */
  function Mul(a: real, b: real): real {
    a * b
  }

  lemma MulPosFn(a: real, b: real)
    requires a > 0.0 && b > 0.0
    ensures Mul(a, b) > 0.0
  {
  }

  lemma MulNegFn(a: real, b: real)
    requires a < 0.0 && b < 0.0
    ensures Mul(a, b) > 0.0
  {
    MulPosFn(-a, -b);
    assert Mul(-a, -b) == Mul(a, b);
  }

  lemma MulAssoc(a: real, b: real, c: real)
    ensures Mul(a, b) * c == Mul(a, b * c)
  {
  }

  lemma Distribute(k: real, a: real, b: real)
    ensures Mul(k, a + b) == Mul(k, a) + Mul(k, b)
  {
  }

  /** A square is never negative and is positive away from zero. */
  lemma SquareSign(a: real)
    ensures Mul(a, a) >= 0.0
    ensures a != 0.0 ==> Mul(a, a) > 0.0
  {
    if a > 0.0 {
      MulPosFn(a, a);
    } else if a < 0.0 {
      MulNegFn(a, a);
    } else {
      assert Mul(a, a) == 0.0;
    }
  }

  lemma MulMonotone(a: real, b: real, c: real)
    requires a <= b && c >= 0.0
    ensures a * c <= b * c
  {
    MulNonNeg(b - a, c);
  }

  lemma MulStrictMonotone(a: real, b: real, c: real)
    requires a < b && c > 0.0
    ensures a * c < b * c
  {
    MulPos(b - a, c);
  }

  /** A non-negative square root is unique. */
  lemma SquareRootUnique(d: real, e: real)
    requires d >= 0.0 && e >= 0.0 && d * d == e * e
    ensures d == e
  {
    if d < e {
      SquareStrictMonotone(d, e);
    } else if e < d {
      SquareStrictMonotone(e, d);
    }
  }

  /** A non-negative root is zero exactly when its square is. */
  lemma RootOfZero(d: real, s: real)
    requires d >= 0.0 && d * d == s
    ensures d == 0.0 <==> s == 0.0
  {
    assert Mul(d, d) == s;
    if d != 0.0 {
      MulPosFn(d, d);
    } else {
      assert Mul(d, d) == 0.0;
    }
  }

  /** Squaring is strictly increasing on the non-negative reals. */
  lemma SquareStrictMonotone(a: real, b: real)
    requires 0.0 <= a < b
    ensures a * a < b * b
  {
    MulStrictMonotone(0.0, b - a, b + a);
    assert (b - a) * (b + a) == b * b - a * a;
  }

  /** Scaling by a fraction in [0,1] lands in [0,m]. */
  lemma UnitScale(d: real, m: real)
    requires 0.0 <= d <= 1.0 && m >= 0.0
    ensures 0.0 <= d * m <= m
  {
    MulNonNeg(d, m);
    MulNonNeg(1.0 - d, m);
    assert (1.0 - d) * m == m - d * m;
  }

  /** Scaling a positive `m` by a fraction in [0,1) lands in [0,m). */
  lemma FracScaleIfPositive(d: real, m: real)
    requires 0.0 <= d < 1.0
    ensures m > 0.0 ==> 0.0 <= d * m < m
  {
    if m > 0.0 {
      FracScale(d, m);
    }
  }

  /** Scaling by a fraction in [0,1) lands in [0,m). */
  lemma FracScale(d: real, m: real)
    requires 0.0 <= d < 1.0 && m > 0.0
    ensures 0.0 <= d * m < m
  {
    MulNonNeg(d, m);
    MulStrictMonotone(d, 1.0, m);
  }
}
