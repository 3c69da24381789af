/** src/utils/gravitational_force_sun.rs: the gravitational pull between the
    sun and the orbiting body at a point of its orbit. */
module GravitationalForceSun {
  import opened Libm
  import opened RealArith
  import opened Radius

  /** Newton's law of gravitation, G m M / r^2, in newtons (the division by
      r^2 is written as two divisions by r, equal over the reals).  A
      massless body feels no force, and the force is never negative for
      non-negative G and masses. */
  function NewtonForce(g: real, mObjectKg: real, mSun: real, r: real): (f: real)
    requires r != 0.0
    ensures mObjectKg == 0.0 ==> f == 0.0
    ensures g * mObjectKg * mSun >= 0.0 ==> f >= 0.0
  {
    QuotientTwiceSign(g * mObjectKg * mSun, r);
    g * mObjectKg * mSun / r / r
  }

  /** calculate_gravitational_force_with_sun: the object's mass is its ratio
      to the Earth's mass times m_earth, and the distance is the conic
      radius at the same angle. */
  function CalculateGravitationalForceWithSun(lib: Math, mObjectEarthRatio: real, mSun: real, mEarth: real,
                                              a: real, e: real, g: real, angle: real): (f: real)
    requires Valid(lib) && a != 0.0 && 0.0 <= e < 1.0
    ensures mObjectEarthRatio == 0.0 ==> f == 0.0
    ensures g * (mObjectEarthRatio * mEarth) * mSun >= 0.0 ==> f >= 0.0
  {
    NewtonForce(g, mObjectEarthRatio * mEarth, mSun, CalculateRadius(lib, a, e, angle))
  }

  /** The force is proportional to the object's mass: a mass k times as
      large feels a force k times as large. */
  lemma NewtonForceLinear(g: real, mObjectKg: real, mSun: real, r: real, k: real)
    requires r != 0.0
    ensures NewtonForce(g, k * mObjectKg, mSun, r) == k * NewtonForce(g, mObjectKg, mSun, r)
  {
    ProductScale(g, k * mObjectKg, mObjectKg, mSun, k);
    QuotientTwiceScale(g * (k * mObjectKg) * mSun, g * mObjectKg * mSun, r, k);
  }

  /** Scaling the mass ratio by k scales the force by k. */
  lemma ForceLinearInMass(lib: Math, k: real, mObjectEarthRatio: real, mSun: real, mEarth: real,
                          a: real, e: real, g: real, angle: real)
    requires Valid(lib) && a != 0.0 && 0.0 <= e < 1.0
    ensures CalculateGravitationalForceWithSun(lib, k * mObjectEarthRatio, mSun, mEarth, a, e, g, angle)
         == k * CalculateGravitationalForceWithSun(lib, mObjectEarthRatio, mSun, mEarth, a, e, g, angle)
  {
    var r := CalculateRadius(lib, a, e, angle);
    var m, mk := mObjectEarthRatio * mEarth, k * mObjectEarthRatio * mEarth;
    assert mk == k * m;
    NewtonForceLinear(g, m, mSun, r, k);
    assert NewtonForce(g, mk, mSun, r) == NewtonForce(g, k * m, mSun, r);
  }

  /** A closer body feels a stronger pull. */
  lemma NewtonForceAntitone(g: real, mObjectKg: real, mSun: real, r1: real, r2: real)
    requires 0.0 < r2 <= r1 && g * mObjectKg * mSun >= 0.0
    ensures NewtonForce(g, mObjectKg, mSun, r1) <= NewtonForce(g, mObjectKg, mSun, r2)
  {
    QuotientTwiceAntitone(g * mObjectKg * mSun, r1, r2);
  }

  /** On a bound orbit the force is largest at periapsis (angle 0) and
      smallest at apoapsis (angle Pi). */
  lemma {:induction false} ForceStrongestAtPeriapsis(lib: Math, mObjectEarthRatio: real, mSun: real, mEarth: real,
                                                     a: real, e: real, g: real, angle: real)
    requires Valid(lib) && BoundOrbit(a, e) && g * (mObjectEarthRatio * mEarth) * mSun >= 0.0
    ensures CalculateGravitationalForceWithSun(lib, mObjectEarthRatio, mSun, mEarth, a, e, g, Pi)
         <= CalculateGravitationalForceWithSun(lib, mObjectEarthRatio, mSun, mEarth, a, e, g, angle)
         <= CalculateGravitationalForceWithSun(lib, mObjectEarthRatio, mSun, mEarth, a, e, g, 0.0)
  {
    var mKg := mObjectEarthRatio * mEarth;
    var c := lib.cos(angle);
    ConicRadiusAntitone(a, e, -1.0, c);
    ConicRadiusAntitone(a, e, c, 1.0);
    NewtonForceAntitone(g, mKg, mSun, ConicRadius(a, e, -1.0), ConicRadius(a, e, c));
    NewtonForceAntitone(g, mKg, mSun, ConicRadius(a, e, c), ConicRadius(a, e, 1.0));
  }

  /** On a circular orbit the force does not depend on the angle. */
  lemma CircularForce(lib: Math, mObjectEarthRatio: real, mSun: real, mEarth: real, a: real, g: real, x: real, y: real)
    requires Valid(lib) && a != 0.0
    ensures CalculateGravitationalForceWithSun(lib, mObjectEarthRatio, mSun, mEarth, a, 0.0, g, x)
         == CalculateGravitationalForceWithSun(lib, mObjectEarthRatio, mSun, mEarth, a, 0.0, g, y)
  {
    CircularRadius(lib, a, x);
    CircularRadius(lib, a, y);
  }
}
