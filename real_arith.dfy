/** Small facts about products and quotients of reals.  The solver does not
    find these on its own inside larger proofs, so the physics proofs cite
    them one step at a time. */
module RealArith {

  lemma MulNonNeg(x: real, y: real)
    requires 0.0 <= x && 0.0 <= y
    ensures 0.0 <= x * y
  {
  }

  lemma MulPos(x: real, y: real)
    requires 0.0 < x && 0.0 < y
    ensures 0.0 < x * y
  {
  }

  /** Multiplying by a non-negative factor keeps an inequality. */
  lemma MulLe(c: real, x: real, y: real)
    requires 0.0 <= c && x <= y
    ensures c * x <= c * y
  {
    MulNonNeg(c, y - x);
    assert c * (y - x) == c * y - c * x;
  }

  /** Multiplying by a positive factor keeps a strict inequality. */
  lemma MulLt(c: real, x: real, y: real)
    requires 0.0 < c && x < y
    ensures c * x < c * y
  {
    MulPos(c, y - x);
    assert c * (y - x) == c * y - c * x;
  }

  /** -c <= c x <= c for |x| <= 1 and c >= 0. */
  lemma ScaledUnitBounds(c: real, x: real)
    requires 0.0 <= c && -1.0 <= x <= 1.0
    ensures -c <= c * x <= c
  {
    MulLe(c, -1.0, x);
    MulLe(c, x, 1.0);
  }

  lemma DivPos(x: real, d: real)
    requires 0.0 < x && 0.0 < d
    ensures 0.0 < x / d
  {
  }

  lemma DivNonNeg(x: real, d: real)
    requires 0.0 <= x && 0.0 < d
    ensures 0.0 <= x / d
  {
  }

  /** A larger positive denominator gives a smaller quotient. */
  lemma DivLeDen(x: real, d1: real, d2: real)
    requires 0.0 <= x && 0.0 < d1 <= d2
    ensures x / d2 <= x / d1
  {
  }

  /** A larger numerator gives a larger quotient. */
  lemma DivLeNum(x: real, y: real, d: real)
    requires x <= y && 0.0 < d
    ensures x / d <= y / d
  {
  }

  /** A larger numerator gives a strictly larger quotient. */
  lemma DivLtNum(x: real, y: real, d: real)
    requires x < y && 0.0 < d
    ensures x / d < y / d
  {
  }

  /** The square of a non-negative real grows with it. */
  lemma SquareLt(p: real, q: real)
    requires 0.0 <= p < q
    ensures p * p < q * q
  {
    var a, b, c := p * p, p * q, q * q;
    assert a <= b;
    assert b < c;
  }

  lemma SquareLe(p: real, q: real)
    requires 0.0 <= p
    ensures p <= q ==> p * p <= q * q
  {
    if p < q {
      SquareLt(p, q);
    }
  }

  lemma PositiveSquare(p: real)
    ensures 0.0 < p ==> 0.0 < p * p
  {
    if 0.0 < p {
      MulPos(p, p);
    }
  }

  lemma NonZeroSquare(p: real)
    requires p != 0.0
    ensures 0.0 < p * p
  {
    if p > 0.0 {
      MulPos(p, p);
    } else {
      MulPos(-p, -p);
      assert (-p) * (-p) == p * p;
    }
  }

  /** Dividing twice by the same number keeps the sign of the numerator. */
  lemma QuotientTwiceSign(x: real, r: real)
    requires r != 0.0
    ensures 0.0 <= x ==> 0.0 <= x / r / r
    ensures 0.0 < x ==> 0.0 < x / r / r
    ensures x < 0.0 ==> x / r / r < 0.0
  {
  }

  /** x / (k r) = x / r / k. */
  lemma DivProduct(x: real, k: real, r: real)
    requires k != 0.0 && r != 0.0
    ensures x / (k * r) == x / r / k
  {
    var q := x / r / k;
    assert q * k * r == x;
  }

  /** (x / r / r) r = x / r. */
  lemma QuotientTwiceTimes(x: real, r: real)
    requires r != 0.0
    ensures x / r / r * r == x / r
  {
  }

  /** 1/x - 1/y = (y - x) / (x y). */
  lemma ReciprocalDifference(x: real, y: real)
    requires x != 0.0 && y != 0.0
    ensures 1.0 / x - 1.0 / y == (y - x) / (x * y)
  {
    var p := x * y;
    assert p != 0.0;
    assert (1.0 / x - 1.0 / y) * p == y - x;
  }

  /** x / r / r shrinks as the positive r grows. */
  lemma QuotientTwiceAntitone(x: real, r1: real, r2: real)
    requires 0.0 <= x && 0.0 < r2 <= r1
    ensures x / r1 / r1 <= x / r2 / r2
  {
    DivLeDen(x, r2, r1);
    DivLeNum(x / r1, x / r2, r1);
    DivLeDen(x / r2, r2, r1);
  }

  /** A non-zero factor can be cancelled from both sides. */
  lemma CancelFactor(x: real, y: real, k: real)
    requires k != 0.0 && x * k == y * k
    ensures x == y
  {
    assert x == x * k / k;
    assert y == y * k / k;
  }

  /** (x k) / k = x for k != 0. */
  lemma QuotientOfProduct(x: real, k: real)
    requires k != 0.0
    ensures x * k / k == x
  {
  }

  /** A quotient by a positive number has the sign of its numerator. */
  lemma QuotientSign(x: real, d: real)
    requires 0.0 < d
    ensures x / d * d == x
    ensures 0.0 < x ==> 0.0 < x / d
    ensures x < 0.0 ==> x / d < 0.0
  {
  }

  /** A constant factor moves out of a quotient. */
  lemma ScaleQuotient(k: real, x: real, d: real)
    requires d != 0.0
    ensures (k * x) / d == k * (x / d)
  {
  }

  /** Scaling the numerator scales a double quotient: y / r / r = k (x / r / r)
      when y = k x.  The numerators are parameters so that the solver sees
      them as atoms. */
  lemma QuotientTwiceScale(y: real, x: real, r: real, k: real)
    requires r != 0.0 && y == k * x
    ensures y / r / r == k * (x / r / r)
  {
    ScaleQuotient(k, x, r);
    ScaleQuotient(k, x / r, r);
  }

  /** g y M = k (g m M) when y = k m. */
  lemma ProductScale(g: real, y: real, m: real, mSun: real, k: real)
    requires y == k * m
    ensures g * y * mSun == k * (g * m * mSun)
  {
    assert g * y == k * (g * m);
  }

  /** Dividing twice by k r instead of r divides the result by k twice. */
  lemma QuotientTwiceScaledDivisor(x: real, r: real, r2: real, k: real)
    requires r != 0.0 && k != 0.0 && r2 == k * r
    ensures x / r2 / r2 == x / r / r / k / k
  {
    DivProduct(x, k, r);
    DivProduct(x / r / k, k, r);
    assert x / r / k / r == x / r / r / k;
  }
}
