/** src/utils/orbital_period.rs: the orbital period from Kepler's third law,
    in years.  The period depends on the semi-major axis and the masses
    only: neither the eccentricity nor the angle is a parameter. */
module OrbitalPeriod {
  import opened Libm
  import opened RealArith

  /** 60 * 60 * 24 * 365.25: seconds in a Julian year. */
  const SecondsPerYear: real := 31557600.0

  /** a.powi(3) */
  function Cube(x: real): (c: real)
    ensures x > 0.0 ==> c > 0.0
  {
    MulPos3(x);
    x * x * x
  }

  lemma MulPos3(x: real)
    ensures x > 0.0 ==> x * x * x > 0.0
  {
    if x > 0.0 {
      assert x * x > 0.0;
    }
  }

  /** The cube grows strictly on the non-negative reals. */
  lemma {:induction false} CubeStrictlyMonotone(x: real, y: real)
    requires 0.0 <= x < y
    ensures Cube(x) < Cube(y)
  {
    var xx, yy := x * x, y * y;
    SquareLt(x, y);
    MulLe(xx, x, y);
    MulLt(y, xx, yy);
    assert Cube(x) == xx * x && Cube(y) == yy * y;
  }

  /** a^3 / (g (m_object + m_sun)): the square of the period over 4 Pi^2, in
      s^2. */
  function KeplerQuotient(a: real, g: real, mObjectEarthRatio: real, mSun: real, mEarth: real): (q: real)
    requires g * (mObjectEarthRatio * mEarth + mSun) != 0.0
  {
    Cube(a) / (g * (mObjectEarthRatio * mEarth + mSun))
  }

  /** For a non-negative axis and a positive G M the quotient is
      non-negative, and positive for a positive axis. */
  lemma KeplerQuotientSign(a: real, g: real, mObjectEarthRatio: real, mSun: real, mEarth: real)
    requires g * (mObjectEarthRatio * mEarth + mSun) > 0.0 && a >= 0.0
    ensures KeplerQuotient(a, g, mObjectEarthRatio, mSun, mEarth) >= 0.0
    ensures a > 0.0 ==> KeplerQuotient(a, g, mObjectEarthRatio, mSun, mEarth) > 0.0
  {
    if a > 0.0 {
      DivPos(Cube(a), g * (mObjectEarthRatio * mEarth + mSun));
    } else {
      assert Cube(a) == 0.0;
    }
  }

  /** calculate_orbital_period: 2 Pi sqrt(a^3 / (G (m_object + m_sun))) in
      seconds, with the object's mass m_object = ratio * m_earth added to the
      sun's, converted to years by dividing by 60, 60, 24 and 365.25.  The
      period is positive for a positive axis and a positive G M. */
  function CalculateOrbitalPeriod(lib: Math, a: real, g: real, mObjectEarthRatio: real, mSun: real, mEarth: real): (p: real)
    requires Valid(lib) && g * (mObjectEarthRatio * mEarth + mSun) != 0.0
    ensures a > 0.0 && g * (mObjectEarthRatio * mEarth + mSun) > 0.0 ==> p > 0.0
  {
    var q := KeplerQuotient(a, g, mObjectEarthRatio, mSun, mEarth);
    assert a > 0.0 && g * (mObjectEarthRatio * mEarth + mSun) > 0.0 ==> lib.sqrt(q) > 0.0 by {
      if a > 0.0 && g * (mObjectEarthRatio * mEarth + mSun) > 0.0 {
        KeplerQuotientSign(a, g, mObjectEarthRatio, mSun, mEarth);
        SqrtPositive(lib, q);
      }
    }
    2.0 * Pi * lib.sqrt(q) / 60.0 / 60.0 / 24.0 / 365.25
  }

  /** The period in seconds is 2 Pi sqrt(q). */
  lemma PeriodInSeconds(lib: Math, a: real, g: real, mObjectEarthRatio: real, mSun: real, mEarth: real)
    requires Valid(lib) && g * (mObjectEarthRatio * mEarth + mSun) != 0.0
    ensures CalculateOrbitalPeriod(lib, a, g, mObjectEarthRatio, mSun, mEarth) * SecondsPerYear
         == 2.0 * Pi * lib.sqrt(KeplerQuotient(a, g, mObjectEarthRatio, mSun, mEarth))
  {
  }

  /** Kepler's third law: the square of the period in seconds is
      4 Pi^2 a^3 / (G (m_object + m_sun)). */
  lemma {:induction false} KeplerThirdLaw(lib: Math, a: real, g: real, mObjectEarthRatio: real, mSun: real, mEarth: real)
    requires Valid(lib) && g * (mObjectEarthRatio * mEarth + mSun) > 0.0 && a >= 0.0
    ensures var t := CalculateOrbitalPeriod(lib, a, g, mObjectEarthRatio, mSun, mEarth) * SecondsPerYear;
      t * t == 4.0 * Pi * Pi * KeplerQuotient(a, g, mObjectEarthRatio, mSun, mEarth)
  {
    var q := KeplerQuotient(a, g, mObjectEarthRatio, mSun, mEarth);
    KeplerQuotientSign(a, g, mObjectEarthRatio, mSun, mEarth);
    PeriodInSeconds(lib, a, g, mObjectEarthRatio, mSun, mEarth);
    var s := lib.sqrt(q);
    assert s * s == q;
    TwoPiSquare(s, q);
  }

  lemma TwoPiSquare(s: real, q: real)
    requires s * s == q
    ensures (2.0 * Pi * s) * (2.0 * Pi * s) == 4.0 * Pi * Pi * q
  {
  }

  /** A wider orbit takes strictly longer. */
  lemma {:induction false} PeriodStrictlyIncreasing(lib: Math, a1: real, a2: real, g: real, mObjectEarthRatio: real, mSun: real, mEarth: real)
    requires Valid(lib) && g * (mObjectEarthRatio * mEarth + mSun) > 0.0 && 0.0 < a1 < a2
    ensures CalculateOrbitalPeriod(lib, a1, g, mObjectEarthRatio, mSun, mEarth)
          < CalculateOrbitalPeriod(lib, a2, g, mObjectEarthRatio, mSun, mEarth)
  {
    var gm := g * (mObjectEarthRatio * mEarth + mSun);
    var q1 := KeplerQuotient(a1, g, mObjectEarthRatio, mSun, mEarth);
    var q2 := KeplerQuotient(a2, g, mObjectEarthRatio, mSun, mEarth);
    CubeStrictlyMonotone(a1, a2);
    KeplerQuotientSign(a1, g, mObjectEarthRatio, mSun, mEarth);
    DivLtNum(Cube(a1), Cube(a2), gm);
    SqrtStrictlyMonotone(lib, q1, q2);
    PeriodInSeconds(lib, a1, g, mObjectEarthRatio, mSun, mEarth);
    PeriodInSeconds(lib, a2, g, mObjectEarthRatio, mSun, mEarth);
    MulLt(2.0 * Pi, lib.sqrt(q1), lib.sqrt(q2));
  }
}
