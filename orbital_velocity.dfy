/** src/utils/orbital_velocity.rs: orbital speed from the vis-viva equation,
    rounded to whole metres per second and expressed in km/s. */
module OrbitalVelocity {
  import opened Libm
  import opened RealArith
  import opened Radius

  /** The square of the vis-viva speed, G M (2/r - 1/a), in m^2/s^2.  On a
      bound orbit every radius is below 2a, so it has the sign of G M. */
  function VisVivaSpeedSquared(gConstant: real, mSun: real, a: real, r: real): (s: real)
    requires a != 0.0 && r != 0.0
  {
    gConstant * mSun * (2.0 / r - 1.0 / a)
  }

  /** calculate_orbital_velocity: sqrt(G M (2/r - 1/a)) with r the conic
      radius at the same angle, rounded in m/s and then divided by 1000.
      The result is a whole number of metres per second, within half a metre
      per second of the exact vis-viva speed, and never negative on a bound
      orbit around a non-negative G M. */
  function CalculateOrbitalVelocity(lib: Math, a: real, e: real, mSun: real, gConstant: real, angle: real): (v: real)
    requires Valid(lib) && a != 0.0 && 0.0 <= e < 1.0
    ensures (v * 1000.0).Floor as real == v * 1000.0
    ensures var speed := lib.sqrt(VisVivaSpeedSquared(gConstant, mSun, a, CalculateRadius(lib, a, e, angle)));
      v * 1000.0 - 0.5 <= speed <= v * 1000.0 + 0.5
    ensures BoundOrbit(a, e) && gConstant * mSun >= 0.0 ==> v >= 0.0
  {
    var r := CalculateRadius(lib, a, e, angle);
    var s := VisVivaSpeedSquared(gConstant, mSun, a, r);
    assert BoundOrbit(a, e) && gConstant * mSun >= 0.0 ==> s >= 0.0 by {
      if BoundOrbit(a, e) && gConstant * mSun >= 0.0 {
        SpeedSquaredNonNegative(gConstant, mSun, a, e, lib.cos(angle));
      }
    }
    var speed := lib.sqrt(s);
    RoundedToMetres(speed);
    Round(speed) as real / 1000.0
  }

  /** A speed in m/s rounded to whole metres per second and written in km/s
      is a whole number of m/s within half a metre per second of the speed,
      and is not negative when the speed is not. */
  lemma RoundedToMetres(speed: real)
    ensures var v := Round(speed) as real / 1000.0;
      && (v * 1000.0).Floor as real == v * 1000.0
      && v * 1000.0 - 0.5 <= speed <= v * 1000.0 + 0.5
      && (speed >= 0.0 ==> v >= 0.0)
  {
    var n := Round(speed);
    assert n as real / 1000.0 * 1000.0 == n as real;
  }

  /** For 0 < r < 2a, 2/r exceeds 1/a. */
  lemma ReciprocalBelowTwiceAxis(a: real, r: real)
    requires 0.0 < r < 2.0 * a
    ensures 2.0 / r - 1.0 / a > 0.0
  {
    DivLeDen(2.0, r, 2.0 * a);
    assert 2.0 / (2.0 * a) == 1.0 / a;
    assert 2.0 / r != 2.0 / (2.0 * a);
  }

  /** On a bound orbit the vis-viva factor 2/r - 1/a is positive at every
      point, since r <= a(1 + e) < 2a. */
  lemma {:induction false} VisVivaFactorPositive(a: real, e: real, c: real)
    requires BoundOrbit(a, e) && -1.0 <= c <= 1.0
    ensures 2.0 / ConicRadius(a, e, c) - 1.0 / a > 0.0
  {
    ConicRadiusAntitone(a, e, -1.0, c);
    ConicApoapsis(a, e);
    MulLt(a, 1.0 + e, 2.0);
    ReciprocalBelowTwiceAxis(a, ConicRadius(a, e, c));
  }

  /** The argument of the square root is non-negative on a bound orbit, so
      the speed is well defined. */
  lemma SpeedSquaredNonNegative(gConstant: real, mSun: real, a: real, e: real, c: real)
    requires BoundOrbit(a, e) && -1.0 <= c <= 1.0 && gConstant * mSun >= 0.0
    ensures VisVivaSpeedSquared(gConstant, mSun, a, ConicRadius(a, e, c)) >= 0.0
  {
    VisVivaFactorPositive(a, e, c);
    MulNonNeg(gConstant * mSun, 2.0 / ConicRadius(a, e, c) - 1.0 / a);
  }

  /** A smaller radius gives a larger squared speed. */
  lemma SpeedSquaredAntitone(gConstant: real, mSun: real, a: real, r1: real, r2: real)
    requires a != 0.0 && 0.0 < r2 <= r1 && gConstant * mSun >= 0.0
    ensures VisVivaSpeedSquared(gConstant, mSun, a, r1) <= VisVivaSpeedSquared(gConstant, mSun, a, r2)
  {
    DivLeDen(2.0, r2, r1);
    MulLe(gConstant * mSun, 2.0 / r1 - 1.0 / a, 2.0 / r2 - 1.0 / a);
  }

  /** The squared speed grows with the cosine of the angle: the body is
      fastest where it is closest. */
  lemma {:induction false} SpeedSquaredMonotone(gConstant: real, mSun: real, a: real, e: real, c1: real, c2: real)
    requires BoundOrbit(a, e) && -1.0 <= c1 <= c2 <= 1.0 && gConstant * mSun >= 0.0
    ensures VisVivaSpeedSquared(gConstant, mSun, a, ConicRadius(a, e, c1))
         <= VisVivaSpeedSquared(gConstant, mSun, a, ConicRadius(a, e, c2))
  {
    var r1, r2 := ConicRadius(a, e, c1), ConicRadius(a, e, c2);
    ConicRadiusAntitone(a, e, c1, c2);
    SpeedSquaredAntitone(gConstant, mSun, a, r1, r2);
  }

  /** The speed at periapsis (angle 0) is the largest on the orbit and the
      speed at apoapsis (angle Pi) the smallest. */
  lemma {:induction false} PeriapsisFastest(lib: Math, a: real, e: real, mSun: real, gConstant: real, angle: real)
    requires Valid(lib) && BoundOrbit(a, e) && gConstant * mSun >= 0.0
    ensures CalculateOrbitalVelocity(lib, a, e, mSun, gConstant, Pi)
         <= CalculateOrbitalVelocity(lib, a, e, mSun, gConstant, angle)
         <= CalculateOrbitalVelocity(lib, a, e, mSun, gConstant, 0.0)
  {
    var c := lib.cos(angle);
    var sLow := VisVivaSpeedSquared(gConstant, mSun, a, ConicRadius(a, e, -1.0));
    var sMid := VisVivaSpeedSquared(gConstant, mSun, a, ConicRadius(a, e, c));
    var sHigh := VisVivaSpeedSquared(gConstant, mSun, a, ConicRadius(a, e, 1.0));
    SpeedSquaredNonNegative(gConstant, mSun, a, e, -1.0);
    SpeedSquaredMonotone(gConstant, mSun, a, e, -1.0, c);
    SpeedSquaredMonotone(gConstant, mSun, a, e, c, 1.0);
    SqrtMonotone(lib, sLow, sMid);
    SqrtMonotone(lib, sMid, sHigh);
    assert 0.0 <= lib.sqrt(sLow);
    RoundMonotone(lib.sqrt(sLow), lib.sqrt(sMid));
    RoundMonotone(lib.sqrt(sMid), lib.sqrt(sHigh));
  }

  /** On a circular orbit the speed is the same at every angle:
      round(sqrt(G M / a)) m/s. */
  lemma {:induction false} CircularVelocity(lib: Math, a: real, mSun: real, gConstant: real, angle: real)
    requires Valid(lib) && a != 0.0
    ensures CalculateOrbitalVelocity(lib, a, 0.0, mSun, gConstant, angle)
         == Round(lib.sqrt(gConstant * mSun / a)) as real / 1000.0
  {
    var gm := gConstant * mSun;
    assert ConicRadius(a, 0.0, lib.cos(angle)) == a;
    assert 2.0 / a - 1.0 / a == 1.0 / a;
    ScaleQuotient(gm, 1.0, a);
    assert VisVivaSpeedSquared(gConstant, mSun, a, a) == gm / a;
  }
}
