/** src/utils/lift_object.rs: the work needed to lift a 1000 kg object from
    a body's surface to 75 km above it. */
module LiftObject {
  import opened RealArith

  /** The lifted mass in kg. */
  const ObjectMass: real := 1000.0

  /** The lift height in m. */
  const LiftHeight: real := 75000.0

  /** r_initial: the body's diameter d_ratio * d_earth in km, converted to
      metres and halved: 500 m per km of diameter, positive exactly for a
      positive diameter. */
  function StartRadius(dRatioEarth: real, dEarth: real): (r: real)
    ensures r == 500.0 * (dRatioEarth * dEarth)
    ensures (r > 0.0) == (dRatioEarth * dEarth > 0.0) && (r == 0.0) == (dRatioEarth * dEarth == 0.0)
  {
    dRatioEarth * dEarth * 1000.0 / 2.0
  }

  /** calculate_lift_energy: G m_object M (1/r_initial - 1/r_final) in
      joules, the difference of the gravitational potential between the
      surface and r_final = r_initial + 75 000 m, with M = ratio * m_earth.
      A massless body needs no work, and lifting from a body of positive
      mass and radius takes positive work. */
  function CalculateLiftEnergy(dRatioEarth: real, dEarth: real, mPlanetRatioEarth: real, mEarth: real, g: real): (w: real)
    requires StartRadius(dRatioEarth, dEarth) != 0.0
    requires StartRadius(dRatioEarth, dEarth) + LiftHeight != 0.0
    ensures mPlanetRatioEarth == 0.0 ==> w == 0.0
    ensures StartRadius(dRatioEarth, dEarth) > 0.0 && g * ObjectMass * (mPlanetRatioEarth * mEarth) > 0.0 ==> w > 0.0
  {
    var rInitial := StartRadius(dRatioEarth, dEarth);
    var rFinal := rInitial + LiftHeight;
    var k := g * ObjectMass * (mPlanetRatioEarth * mEarth);
    assert mPlanetRatioEarth == 0.0 ==> k == 0.0;
    assert rInitial > 0.0 && k > 0.0 ==> k * (1.0 / rInitial - 1.0 / rFinal) > 0.0 by {
      if rInitial > 0.0 && k > 0.0 {
        ReciprocalDifference(rInitial, rFinal);
        MulPos(rInitial, rFinal);
        DivPos(LiftHeight, rInitial * rFinal);
        MulPos(k, 1.0 / rInitial - 1.0 / rFinal);
      }
    }
    k * (1.0 / rInitial - 1.0 / rFinal)
  }

  /** The closed form G m_object M h / (r_initial (r_initial + h)) with
      h = 75 000 m. */
  lemma {:induction false} LiftEnergyClosedForm(dRatioEarth: real, dEarth: real, mPlanetRatioEarth: real, mEarth: real, g: real)
    requires StartRadius(dRatioEarth, dEarth) != 0.0
    requires StartRadius(dRatioEarth, dEarth) + LiftHeight != 0.0
    ensures var r := StartRadius(dRatioEarth, dEarth);
      CalculateLiftEnergy(dRatioEarth, dEarth, mPlanetRatioEarth, mEarth, g)
      == g * ObjectMass * (mPlanetRatioEarth * mEarth) * LiftHeight / (r * (r + LiftHeight))
  {
    var r := StartRadius(dRatioEarth, dEarth);
    var k := g * ObjectMass * (mPlanetRatioEarth * mEarth);
    ReciprocalDifference(r, r + LiftHeight);
    ScaleQuotient(k, LiftHeight, r * (r + LiftHeight));
  }

  /** The work is proportional to the body's mass. */
  lemma LiftEnergyLinearInMass(dRatioEarth: real, dEarth: real, mPlanetRatioEarth: real, mEarth: real, g: real, c: real)
    requires StartRadius(dRatioEarth, dEarth) != 0.0
    requires StartRadius(dRatioEarth, dEarth) + LiftHeight != 0.0
    ensures CalculateLiftEnergy(dRatioEarth, dEarth, c * mPlanetRatioEarth, mEarth, g)
         == c * CalculateLiftEnergy(dRatioEarth, dEarth, mPlanetRatioEarth, mEarth, g)
  {
    var r := StartRadius(dRatioEarth, dEarth);
    var x := 1.0 / r - 1.0 / (r + LiftHeight);
    var k := g * ObjectMass * (mPlanetRatioEarth * mEarth);
    assert g * ObjectMass * (c * mPlanetRatioEarth * mEarth) == c * k;
  }
}
