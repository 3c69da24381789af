/** src/utils/escape_velocity.rs: escape velocity from the surface of a body,
    in km/s. */
module EscapeVelocity {
  import opened Libm
  import opened RealArith
  import opened GravitationalAcceleration

  /** calculate_escape_velocity: sqrt(2 g R) / 1000, with g the surface
      gravity and R the surface radius of the same body.  It is never
      negative for a body of non-negative mass and positive diameter, and a
      massless body has escape velocity 0. */
  function CalculateEscapeVelocity(lib: Math, d: real, m: real, mEarth: real): (v: real)
    requires Valid(lib) && d != 0.0
    ensures m * mEarth >= 0.0 && d > 0.0 ==> v >= 0.0
    ensures m == 0.0 ==> v == 0.0
  {
    var radius := SurfaceRadius(d);
    var gs := CalculateGravitationalAcceleration(d, m, mEarth);
    assert m * mEarth >= 0.0 && d > 0.0 ==> 2.0 * gs * radius >= 0.0 by {
      if m * mEarth >= 0.0 && d > 0.0 {
        MulNonNeg(2.0 * gs, radius);
      }
    }
    lib.sqrt(2.0 * gs * radius) / 1000.0
  }

  /** 2 g R = 2 G M / R: surface gravity times radius is G M / R. */
  lemma {:induction false} TwiceGravityTimesRadius(d: real, m: real, mEarth: real)
    requires d != 0.0
    ensures 2.0 * CalculateGravitationalAcceleration(d, m, mEarth) * SurfaceRadius(d)
         == 2.0 * GravitationalConstant * (m * mEarth) / SurfaceRadius(d)
  {
    var x := GravitationalConstant * (m * mEarth);
    var radius := SurfaceRadius(d);
    QuotientTwiceTimes(x, radius);
    ScaleQuotient(2.0, x, radius);
  }

  /** Because g R = G M / R, the escape velocity is sqrt(2 G M / R) / 1000:
      the classical formula in terms of the mass alone. */
  lemma EscapeVelocityFromMass(lib: Math, d: real, m: real, mEarth: real)
    requires Valid(lib) && d != 0.0
    ensures CalculateEscapeVelocity(lib, d, m, mEarth)
         == lib.sqrt(2.0 * GravitationalConstant * (m * mEarth) / SurfaceRadius(d)) / 1000.0
  {
    TwiceGravityTimesRadius(d, m, mEarth);
  }

  /** The escape velocity squared, in (m/s)^2, is 2 G M / R. */
  lemma {:induction false} EscapeVelocitySquared(lib: Math, d: real, m: real, mEarth: real)
    requires Valid(lib) && d > 0.0 && m * mEarth >= 0.0
    ensures var v := CalculateEscapeVelocity(lib, d, m, mEarth);
      (v * 1000.0) * (v * 1000.0) == 2.0 * GravitationalConstant * (m * mEarth) / SurfaceRadius(d)
  {
    var q := 2.0 * GravitationalConstant * (m * mEarth) / SurfaceRadius(d);
    EscapeVelocityFromMass(lib, d, m, mEarth);
    MulNonNeg(2.0 * GravitationalConstant, m * mEarth);
    DivNonNeg(2.0 * GravitationalConstant * (m * mEarth), SurfaceRadius(d));
    assert CalculateEscapeVelocity(lib, d, m, mEarth) * 1000.0 == lib.sqrt(q);
  }
}
