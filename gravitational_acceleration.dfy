/** src/utils/gravitational_acceleration.rs: surface gravity of a body given
    its mass and diameter as ratios of the Earth's. */
module GravitationalAcceleration {
  import opened RealArith

  /** G = 6.6743e-11 N m^2 / kg^2, written into the formula rather than
      passed in. */
  const GravitationalConstant: real := 6.6743e-11

  /** The Earth's diameter in km that diameter ratios refer to. */
  const EarthDiameterKm: real := 12742.46

  /** The radius in metres of a body whose diameter is d Earth diameters:
      d * 12742.46 km converted to metres and halved.  One Earth diameter
      gives the Earth's radius of 6 371 230 m, and the radius has the sign of
      d. */
  function SurfaceRadius(d: real): (r: real)
    ensures r == d * 6371230.0
    ensures (r > 0.0) == (d > 0.0) && (r == 0.0) == (d == 0.0)
  {
    (d * EarthDiameterKm * 1000.0) / 2.0
  }

  /** calculate_gravitational_acceleration: G M / R^2 in m/s^2, with the mass
      M = m * m_earth in kg and R the surface radius (the division by R^2 is
      written as two divisions by R, equal over the reals).  The result has
      the sign of M: it is zero exactly for a massless body and positive
      exactly for a positive mass. */
  function CalculateGravitationalAcceleration(d: real, m: real, mEarth: real): (gs: real)
    requires d != 0.0
    ensures (gs == 0.0) == (m * mEarth == 0.0)
    ensures (gs > 0.0) == (m * mEarth > 0.0)
  {
    var massKg := m * mEarth;
    var radius := SurfaceRadius(d);
    QuotientTwiceSign(GravitationalConstant * massKg, radius);
    GravitationalConstant * massKg / radius / radius
  }

  /** Surface gravity is proportional to the body's mass. */
  lemma AccelerationLinearInMass(d: real, m: real, mEarth: real, k: real)
    requires d != 0.0
    ensures CalculateGravitationalAcceleration(d, k * m, mEarth)
         == k * CalculateGravitationalAcceleration(d, m, mEarth)
  {
    assert GravitationalConstant * (k * m * mEarth) == k * (GravitationalConstant * (m * mEarth));
    QuotientTwiceScale(GravitationalConstant * (k * m * mEarth), GravitationalConstant * (m * mEarth), SurfaceRadius(d), k);
  }

  /** Inverse-square law: scaling the diameter by k != 0 divides surface
      gravity by k^2. */
  lemma {:induction false} AccelerationInverseSquare(d: real, m: real, mEarth: real, k: real)
    requires d != 0.0 && k != 0.0
    ensures CalculateGravitationalAcceleration(k * d, m, mEarth)
         == CalculateGravitationalAcceleration(d, m, mEarth) / k / k
  {
    assert SurfaceRadius(k * d) == k * SurfaceRadius(d);
    QuotientTwiceScaledDivisor(GravitationalConstant * (m * mEarth), SurfaceRadius(d), SurfaceRadius(k * d), k);
  }
}
