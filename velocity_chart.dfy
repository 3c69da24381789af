/** src/components/orbital_velocity_chart.rs: the data of the speed chart,
    speed in km/s against the angle, cut off above 40 km/s. */
module VelocityChart {
  import opened Libm
  import opened Radius
  import opened OrbitalVelocity
  import opened OrbitVisualization
  import opened ChartSampling

  /** The top of the chart's y range: speeds up to 40 km/s inclusive are
      charted. */
  const VelocityCeiling: Ceiling := AtMost(40.0)

  /** The speed at each of the angles, in order. */
  function VelocityPoints(lib: Math, a: real, e: real, mSun: real, gConstant: real, angles: seq<real>): (ps: seq<ChartData>)
    requires Valid(lib) && a != 0.0 && 0.0 <= e < 1.0
    ensures |ps| == |angles|
    ensures forall i :: 0 <= i < |angles| ==>
      ps[i] == ChartData(angles[i], CalculateOrbitalVelocity(lib, a, e, mSun, gConstant, angles[i]))
  {
    if angles == [] then []
    else [ChartData(angles[0], CalculateOrbitalVelocity(lib, a, e, mSun, gConstant, angles[0]))]
         + VelocityPoints(lib, a, e, mSun, gConstant, angles[1..])
  }

  /** The chart as the walk from angle builds it, one step at a time. */
  function Walk(lib: Math, a: real, e: real, mSun: real, gConstant: real, angle: real, end: real, step: real): (data: seq<ChartData>)
    requires Valid(lib) && a != 0.0 && 0.0 <= e < 1.0 && step > 0.0
    decreases Remaining(angle, end, step)
  {
    if angle < end then
      RemainingDecreases(angle, end, step);
      var v := CalculateOrbitalVelocity(lib, a, e, mSun, gConstant, angle);
      (if v <= 40.0 then [ChartData(angle, v)] else []) + Walk(lib, a, e, mSun, gConstant, angle + step, end, step)
    else
      []
  }

  /** The walk charts exactly the sampled speeds that pass the ceiling, in
      the order of the samples. */
  lemma {:induction false} WalkIsFiltered(lib: Math, a: real, e: real, mSun: real, gConstant: real, angle: real, end: real, step: real)
    requires Valid(lib) && a != 0.0 && 0.0 <= e < 1.0 && step > 0.0
    ensures Walk(lib, a, e, mSun, gConstant, angle, end, step)
         == Filtered(VelocityPoints(lib, a, e, mSun, gConstant, SampleAngles(angle, end, step)), VelocityCeiling)
    decreases Remaining(angle, end, step)
  {
    if angle < end {
      RemainingDecreases(angle, end, step);
      WalkIsFiltered(lib, a, e, mSun, gConstant, angle + step, end, step);
      var xs := SampleAngles(angle, end, step);
      assert xs[1..] == SampleAngles(angle + step, end, step);
      var ps := VelocityPoints(lib, a, e, mSun, gConstant, xs);
      assert ps[1..] == VelocityPoints(lib, a, e, mSun, gConstant, xs[1..]);
    }
  }

  /** One step of the walk: the sample at angle is charted when it passes
      the ceiling, and fewer samples remain. */
  lemma WalkStep(lib: Math, a: real, e: real, mSun: real, gConstant: real, start: real, angle: real, end: real, step: real,
                 data: seq<ChartData>)
    requires Valid(lib) && a != 0.0 && 0.0 <= e < 1.0 && step > 0.0 && angle < end
    requires Walk(lib, a, e, mSun, gConstant, start, end, step) == data + Walk(lib, a, e, mSun, gConstant, angle, end, step)
    ensures |SampleAngles(angle + step, end, step)| < |SampleAngles(angle, end, step)|
    ensures var v := CalculateOrbitalVelocity(lib, a, e, mSun, gConstant, angle);
      Walk(lib, a, e, mSun, gConstant, start, end, step)
      == (if v <= 40.0 then data + [ChartData(angle, v)] else data) + Walk(lib, a, e, mSun, gConstant, angle + step, end, step)
  {
    RemainingDecreases(angle, end, step);
    var v := CalculateOrbitalVelocity(lib, a, e, mSun, gConstant, angle);
    var rest := Walk(lib, a, e, mSun, gConstant, angle + step, end, step);
    if v <= 40.0 {
      assert data + [ChartData(angle, v)] + rest == data + ([ChartData(angle, v)] + rest);
    }
  }

  /** get_chart_data: walk the angle from start in steps of step while it is
      below end and push (angle, speed) whenever the speed is at most
      40 km/s. */
  method GetChartData(lib: Math, a: real, e: real, mSun: real, gConstant: real, start: real, end: real, step: real)
    returns (data: seq<ChartData>)
    requires Valid(lib) && a != 0.0 && 0.0 <= e < 1.0 && step > 0.0
    ensures data == Filtered(VelocityPoints(lib, a, e, mSun, gConstant, SampleAngles(start, end, step)), VelocityCeiling)
  {
    data := [];
    var angle := start;
    while angle < end
      invariant Walk(lib, a, e, mSun, gConstant, start, end, step) == data + Walk(lib, a, e, mSun, gConstant, angle, end, step)
      decreases |SampleAngles(angle, end, step)|
    {
      WalkStep(lib, a, e, mSun, gConstant, start, angle, end, step, data);
      var velocity := CalculateOrbitalVelocity(lib, a, e, mSun, gConstant, angle);
      if velocity <= 40.0 {
        data := data + [ChartData(angle, velocity)];
      }
      angle := angle + step;
    }
    WalkIsFiltered(lib, a, e, mSun, gConstant, start, end, step);
  }

  /** A point is on the speed chart exactly when its angle is a sample, its
      y is the speed there and that speed is at most 40 km/s. */
  lemma VelocityChartPoints(lib: Math, a: real, e: real, mSun: real, gConstant: real, start: real, end: real, step: real, d: ChartData)
    requires Valid(lib) && a != 0.0 && 0.0 <= e < 1.0 && step > 0.0
    ensures d in Filtered(VelocityPoints(lib, a, e, mSun, gConstant, SampleAngles(start, end, step)), VelocityCeiling)
        <==> (d.x in SampleAngles(start, end, step)
              && d.y == CalculateOrbitalVelocity(lib, a, e, mSun, gConstant, d.x)
              && d.y <= 40.0)
  {
    var xs := SampleAngles(start, end, step);
    var ps := VelocityPoints(lib, a, e, mSun, gConstant, xs);
    FilteredMembership(ps, VelocityCeiling, d);
    if d in ps {
      var i :| 0 <= i < |ps| && ps[i] == d;
      assert xs[i] == d.x;
    }
    if d.x in xs && d.y == CalculateOrbitalVelocity(lib, a, e, mSun, gConstant, d.x) {
      var i :| 0 <= i < |xs| && xs[i] == d.x;
      assert ps[i] == d;
    }
  }

  /** The chart's points are in increasing order of angle. */
  lemma VelocityChartOrdered(lib: Math, a: real, e: real, mSun: real, gConstant: real, start: real, end: real, step: real)
    requires Valid(lib) && a != 0.0 && 0.0 <= e < 1.0 && step > 0.0
    ensures Increasing(Filtered(VelocityPoints(lib, a, e, mSun, gConstant, SampleAngles(start, end, step)), VelocityCeiling))
  {
    var xs := SampleAngles(start, end, step);
    var ps := VelocityPoints(lib, a, e, mSun, gConstant, xs);
    forall i, j | 0 <= i < j < |ps|
      ensures ps[i].x < ps[j].x
    {
      SampleAnglesIncreasing(start, end, step, i, j);
    }
    FilteredIncreasing(ps, VelocityCeiling);
  }

  /** On a bound orbit whose speed at periapsis is within the ceiling, no
      sample is cut: the chart has a point at every sampled angle. */
  lemma {:induction false} VelocityChartComplete(lib: Math, a: real, e: real, mSun: real, gConstant: real, start: real, end: real, step: real)
    requires Valid(lib) && BoundOrbit(a, e) && gConstant * mSun >= 0.0 && step > 0.0
    requires CalculateOrbitalVelocity(lib, a, e, mSun, gConstant, 0.0) <= 40.0
    ensures Filtered(VelocityPoints(lib, a, e, mSun, gConstant, SampleAngles(start, end, step)), VelocityCeiling)
         == VelocityPoints(lib, a, e, mSun, gConstant, SampleAngles(start, end, step))
  {
    var xs := SampleAngles(start, end, step);
    var ps := VelocityPoints(lib, a, e, mSun, gConstant, xs);
    forall i | 0 <= i < |ps|
      ensures Passes(VelocityCeiling, ps[i].y)
    {
      PeriapsisFastest(lib, a, e, mSun, gConstant, xs[i]);
    }
    FilteredAll(ps, VelocityCeiling);
  }
}
