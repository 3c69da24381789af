/** src/utils/radius.rs: distance from the focus (the sun) to a body on its
    orbit, from the polar equation of a conic section. */
module Radius {
  import opened Libm
  import opened RealArith

  /** A closed (elliptic or circular) orbit around the focus. */
  predicate BoundOrbit(a: real, e: real) {
    a > 0.0 && 0.0 <= e < 1.0
  }

  /** The polar equation of the conic, r = a(1 - e^2) / (1 + e c), written
      for the cosine c of the true anomaly.  On a bound orbit the radius is
      positive and lies between periapsis a(1 - e) and apoapsis a(1 + e). */
  function ConicRadius(a: real, e: real, c: real): (r: real)
    requires 0.0 <= e < 1.0 && -1.0 <= c <= 1.0
    ensures a > 0.0 ==> r > 0.0
    ensures a < 0.0 ==> r < 0.0
  {
    ConicDenominator(e, c);
    SemiLatusRectumPositive(a, e);
    QuotientSign(a * (1.0 - e * e), 1.0 + e * c);
    (a * (1.0 - e * e)) / (1.0 + e * c)
  }

  /** calculate_radius(a, e, angle) = a(1 - e^2) / (1 + e cos(angle)).  The
      radius has the sign of a, so it vanishes only when a does. */
  function CalculateRadius(lib: Math, a: real, e: real, angle: real): (r: real)
    requires Valid(lib) && 0.0 <= e < 1.0
    ensures a > 0.0 ==> r > 0.0
    ensures a < 0.0 ==> r < 0.0
  {
    ConicRadius(a, e, lib.cos(angle))
  }

  /** 1 - e <= 1 + e c <= 1 + e: the denominator never vanishes on a bound
      orbit. */
  lemma ConicDenominator(e: real, c: real)
    requires 0.0 <= e < 1.0 && -1.0 <= c <= 1.0
    ensures 1.0 - e <= 1.0 + e * c <= 1.0 + e
  {
    ScaledUnitBounds(e, c);
  }

  /** a (1 - e^2) = a (1 - e)(1 + e), positive for a > 0. */
  lemma SemiLatusRectumPositive(a: real, e: real)
    requires 0.0 <= e < 1.0
    ensures a * (1.0 - e * e) == a * (1.0 - e) * (1.0 + e)
    ensures a > 0.0 ==> a * (1.0 - e * e) > 0.0
    ensures a < 0.0 ==> a * (1.0 - e * e) < 0.0
  {
    MulLe(e, e, 1.0);
    if a > 0.0 {
      MulPos(a, 1.0 - e * e);
    } else if a < 0.0 {
      MulPos(-a, 1.0 - e * e);
    }
  }

  /** With e = 0 the orbit is a circle of radius a, whatever the angle. */
  lemma CircularRadius(lib: Math, a: real, angle: real)
    requires Valid(lib)
    ensures CalculateRadius(lib, a, 0.0, angle) == a
  {
  }

  /** With cosine 1 the conic gives the periapsis distance a(1 - e). */
  lemma {:induction false} ConicPeriapsis(a: real, e: real)
    requires 0.0 <= e < 1.0
    ensures ConicRadius(a, e, 1.0) == a * (1.0 - e)
  {
    SemiLatusRectumPositive(a, e);
    QuotientOfProduct(a * (1.0 - e), 1.0 + e);
  }

  /** With cosine -1 the conic gives the apoapsis distance a(1 + e). */
  lemma {:induction false} ConicApoapsis(a: real, e: real)
    requires 0.0 <= e < 1.0
    ensures ConicRadius(a, e, -1.0) == a * (1.0 + e)
  {
    SemiLatusRectumPositive(a, e);
    QuotientOfProduct(a * (1.0 + e), 1.0 - e);
    assert a * (1.0 + e) * (1.0 - e) == a * (1.0 - e) * (1.0 + e);
  }

  /** At angle 0 (cos 0 = 1) the body is at periapsis, a(1 - e). */
  lemma PeriapsisRadius(lib: Math, a: real, e: real)
    requires Valid(lib) && 0.0 <= e < 1.0
    ensures CalculateRadius(lib, a, e, 0.0) == a * (1.0 - e)
  {
    ConicPeriapsis(a, e);
  }

  /** At angle Pi (cos Pi = -1) the body is at apoapsis, a(1 + e). */
  lemma ApoapsisRadius(lib: Math, a: real, e: real)
    requires Valid(lib) && 0.0 <= e < 1.0
    ensures CalculateRadius(lib, a, e, Pi) == a * (1.0 + e)
  {
    ConicApoapsis(a, e);
  }

  /** The conic radius shrinks as the cosine grows: the body is farthest
      where the cosine is smallest. */
  lemma {:induction false} ConicRadiusAntitone(a: real, e: real, c1: real, c2: real)
    requires BoundOrbit(a, e) && -1.0 <= c1 <= c2 <= 1.0
    ensures ConicRadius(a, e, c2) <= ConicRadius(a, e, c1)
  {
    ConicDenominator(e, c1);
    ConicDenominator(e, c2);
    SemiLatusRectumPositive(a, e);
    MulLe(e, c1, c2);
    DivLeDen(a * (1.0 - e * e), 1.0 + e * c1, 1.0 + e * c2);
  }

  /** Every point of a bound orbit lies between periapsis and apoapsis. */
  lemma {:induction false} RadiusBounds(lib: Math, a: real, e: real, angle: real)
    requires Valid(lib) && BoundOrbit(a, e)
    ensures a * (1.0 - e) <= CalculateRadius(lib, a, e, angle) <= a * (1.0 + e)
  {
    ConicRadiusAntitone(a, e, lib.cos(angle), 1.0);
    ConicRadiusAntitone(a, e, -1.0, lib.cos(angle));
    PeriapsisRadius(lib, a, e);
    ApoapsisRadius(lib, a, e);
  }

  /** Periapsis is the global minimum of the orbit and apoapsis the global
      maximum. */
  lemma PeriapsisIsClosest(lib: Math, a: real, e: real, angle: real)
    requires Valid(lib) && BoundOrbit(a, e)
    ensures CalculateRadius(lib, a, e, 0.0) <= CalculateRadius(lib, a, e, angle) <= CalculateRadius(lib, a, e, Pi)
  {
    RadiusBounds(lib, a, e, angle);
    PeriapsisRadius(lib, a, e);
    ApoapsisRadius(lib, a, e);
  }

  /** The radius depends on the angle only through its cosine, so the orbit
      is symmetric about the apsidal line. */
  lemma RadiusThroughCosine(lib: Math, a: real, e: real, x: real, y: real)
    requires Valid(lib) && 0.0 <= e < 1.0
    requires lib.cos(x) == lib.cos(y)
    ensures CalculateRadius(lib, a, e, x) == CalculateRadius(lib, a, e, y)
  {
  }
}
