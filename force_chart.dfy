/** src/components/gravitational_force_with_sun_chart.rs: the data of the
    force chart, the sun's pull in newtons against the angle, cut off at
    4.6 * 10^23 N. */
module ForceChart {
  import opened Libm
  import opened Radius
  import opened GravitationalForceSun
  import opened OrbitVisualization
  import opened ChartSampling

  /** 4.6 * 10^23 N, the top of the chart's y range. */
  const ForceLimit: real := 4.6e23

  /** Forces strictly below the limit are charted. */
  const ForceCeiling: Ceiling := Below(ForceLimit)

  /** The force at each of the angles, in order. */
  function ForcePoints(lib: Math, mObjectEarthRatio: real, mSun: real, mEarth: real, a: real, e: real, g: real,
                       angles: seq<real>): (ps: seq<ChartData>)
    requires Valid(lib) && a != 0.0 && 0.0 <= e < 1.0
    ensures |ps| == |angles|
    ensures forall i :: 0 <= i < |angles| ==>
      ps[i] == ChartData(angles[i], CalculateGravitationalForceWithSun(lib, mObjectEarthRatio, mSun, mEarth, a, e, g, angles[i]))
  {
    if angles == [] then []
    else [ChartData(angles[0], CalculateGravitationalForceWithSun(lib, mObjectEarthRatio, mSun, mEarth, a, e, g, angles[0]))]
         + ForcePoints(lib, mObjectEarthRatio, mSun, mEarth, a, e, g, angles[1..])
  }

  /** The chart as the walk from angle builds it, one step at a time. */
  function Walk(lib: Math, mObjectEarthRatio: real, mSun: real, mEarth: real, a: real, e: real, g: real,
                angle: real, end: real, step: real): (data: seq<ChartData>)
    requires Valid(lib) && a != 0.0 && 0.0 <= e < 1.0 && step > 0.0
    decreases Remaining(angle, end, step)
  {
    if angle < end then
      RemainingDecreases(angle, end, step);
      var f := CalculateGravitationalForceWithSun(lib, mObjectEarthRatio, mSun, mEarth, a, e, g, angle);
      (if f < ForceLimit then [ChartData(angle, f)] else [])
        + Walk(lib, mObjectEarthRatio, mSun, mEarth, a, e, g, angle + step, end, step)
    else
      []
  }

  /** The walk charts exactly the sampled forces that pass the ceiling, in
      the order of the samples. */
  lemma {:induction false} WalkIsFiltered(lib: Math, mObjectEarthRatio: real, mSun: real, mEarth: real, a: real, e: real, g: real,
                                          angle: real, end: real, step: real)
    requires Valid(lib) && a != 0.0 && 0.0 <= e < 1.0 && step > 0.0
    ensures Walk(lib, mObjectEarthRatio, mSun, mEarth, a, e, g, angle, end, step)
         == Filtered(ForcePoints(lib, mObjectEarthRatio, mSun, mEarth, a, e, g, SampleAngles(angle, end, step)), ForceCeiling)
    decreases Remaining(angle, end, step)
  {
    if angle < end {
      RemainingDecreases(angle, end, step);
      WalkIsFiltered(lib, mObjectEarthRatio, mSun, mEarth, a, e, g, angle + step, end, step);
      var xs := SampleAngles(angle, end, step);
      assert xs[1..] == SampleAngles(angle + step, end, step);
      var ps := ForcePoints(lib, mObjectEarthRatio, mSun, mEarth, a, e, g, xs);
      assert ps[1..] == ForcePoints(lib, mObjectEarthRatio, mSun, mEarth, a, e, g, xs[1..]);
    }
  }

  /** One step of the walk: the sample at angle is charted when it passes
      the limit, and fewer samples remain. */
  lemma WalkStep(lib: Math, mObjectEarthRatio: real, mSun: real, mEarth: real, a: real, e: real, g: real,
                 start: real, angle: real, end: real, step: real, data: seq<ChartData>)
    requires Valid(lib) && a != 0.0 && 0.0 <= e < 1.0 && step > 0.0 && angle < end
    requires Walk(lib, mObjectEarthRatio, mSun, mEarth, a, e, g, start, end, step) == data + Walk(lib, mObjectEarthRatio, mSun, mEarth, a, e, g, angle, end, step)
    ensures |SampleAngles(angle + step, end, step)| < |SampleAngles(angle, end, step)|
    ensures var f := CalculateGravitationalForceWithSun(lib, mObjectEarthRatio, mSun, mEarth, a, e, g, angle);
      Walk(lib, mObjectEarthRatio, mSun, mEarth, a, e, g, start, end, step)
      == (if f < ForceLimit then data + [ChartData(angle, f)] else data) + Walk(lib, mObjectEarthRatio, mSun, mEarth, a, e, g, angle + step, end, step)
  {
    RemainingDecreases(angle, end, step);
    var f := CalculateGravitationalForceWithSun(lib, mObjectEarthRatio, mSun, mEarth, a, e, g, angle);
    var rest := Walk(lib, mObjectEarthRatio, mSun, mEarth, a, e, g, angle + step, end, step);
    if f < ForceLimit {
      assert data + [ChartData(angle, f)] + rest == data + ([ChartData(angle, f)] + rest);
    }
  }

  /** get_chart_data: walk the angle from start in steps of step while it is
      below end and push (angle, force) whenever the force is below
      4.6 * 10^23 N. */
  method GetChartData(lib: Math, mObjectEarthRatio: real, mSun: real, mEarth: real, a: real, e: real, g: real,
                      start: real, end: real, step: real) returns (data: seq<ChartData>)
    requires Valid(lib) && a != 0.0 && 0.0 <= e < 1.0 && step > 0.0
    ensures data == Filtered(ForcePoints(lib, mObjectEarthRatio, mSun, mEarth, a, e, g, SampleAngles(start, end, step)), ForceCeiling)
  {
    data := [];
    var angle := start;
    while angle < end
      invariant Walk(lib, mObjectEarthRatio, mSun, mEarth, a, e, g, start, end, step)
             == data + Walk(lib, mObjectEarthRatio, mSun, mEarth, a, e, g, angle, end, step)
      decreases |SampleAngles(angle, end, step)|
    {
      WalkStep(lib, mObjectEarthRatio, mSun, mEarth, a, e, g, start, angle, end, step, data);
      var force := CalculateGravitationalForceWithSun(lib, mObjectEarthRatio, mSun, mEarth, a, e, g, angle);
      if force < ForceLimit {
        data := data + [ChartData(angle, force)];
      }
      angle := angle + step;
    }
    WalkIsFiltered(lib, mObjectEarthRatio, mSun, mEarth, a, e, g, start, end, step);
  }

  /** A point is on the force chart exactly when its angle is a sample, its
      y is the force there and that force is below the limit. */
  lemma ForceChartPoints(lib: Math, mObjectEarthRatio: real, mSun: real, mEarth: real, a: real, e: real, g: real,
                         start: real, end: real, step: real, d: ChartData)
    requires Valid(lib) && a != 0.0 && 0.0 <= e < 1.0 && step > 0.0
    ensures d in Filtered(ForcePoints(lib, mObjectEarthRatio, mSun, mEarth, a, e, g, SampleAngles(start, end, step)), ForceCeiling)
        <==> (d.x in SampleAngles(start, end, step)
              && d.y == CalculateGravitationalForceWithSun(lib, mObjectEarthRatio, mSun, mEarth, a, e, g, d.x)
              && d.y < ForceLimit)
  {
    var xs := SampleAngles(start, end, step);
    var ps := ForcePoints(lib, mObjectEarthRatio, mSun, mEarth, a, e, g, xs);
    FilteredMembership(ps, ForceCeiling, d);
    if d in ps {
      var i :| 0 <= i < |ps| && ps[i] == d;
      assert xs[i] == d.x;
    }
    if d.x in xs && d.y == CalculateGravitationalForceWithSun(lib, mObjectEarthRatio, mSun, mEarth, a, e, g, d.x) {
      var i :| 0 <= i < |xs| && xs[i] == d.x;
      assert ps[i] == d;
    }
  }

  /** The chart's points are in increasing order of angle. */
  lemma ForceChartOrdered(lib: Math, mObjectEarthRatio: real, mSun: real, mEarth: real, a: real, e: real, g: real,
                          start: real, end: real, step: real)
    requires Valid(lib) && a != 0.0 && 0.0 <= e < 1.0 && step > 0.0
    ensures Increasing(Filtered(ForcePoints(lib, mObjectEarthRatio, mSun, mEarth, a, e, g, SampleAngles(start, end, step)), ForceCeiling))
  {
    var xs := SampleAngles(start, end, step);
    var ps := ForcePoints(lib, mObjectEarthRatio, mSun, mEarth, a, e, g, xs);
    forall i, j | 0 <= i < j < |ps|
      ensures ps[i].x < ps[j].x
    {
      SampleAnglesIncreasing(start, end, step, i, j);
    }
    FilteredIncreasing(ps, ForceCeiling);
  }

  /** On a bound orbit whose pull at periapsis is below the limit, no sample
      is cut. */
  lemma {:induction false} ForceChartComplete(lib: Math, mObjectEarthRatio: real, mSun: real, mEarth: real, a: real, e: real, g: real,
                                              start: real, end: real, step: real)
    requires Valid(lib) && BoundOrbit(a, e) && g * (mObjectEarthRatio * mEarth) * mSun >= 0.0 && step > 0.0
    requires CalculateGravitationalForceWithSun(lib, mObjectEarthRatio, mSun, mEarth, a, e, g, 0.0) < ForceLimit
    ensures Filtered(ForcePoints(lib, mObjectEarthRatio, mSun, mEarth, a, e, g, SampleAngles(start, end, step)), ForceCeiling)
         == ForcePoints(lib, mObjectEarthRatio, mSun, mEarth, a, e, g, SampleAngles(start, end, step))
  {
    var xs := SampleAngles(start, end, step);
    var ps := ForcePoints(lib, mObjectEarthRatio, mSun, mEarth, a, e, g, xs);
    forall i | 0 <= i < |ps|
      ensures Passes(ForceCeiling, ps[i].y)
    {
      ForceStrongestAtPeriapsis(lib, mObjectEarthRatio, mSun, mEarth, a, e, g, xs[i]);
    }
    FilteredAll(ps, ForceCeiling);
  }

  /** A massless body feels no force, so every sample is charted at 0 N. */
  lemma {:induction false} MasslessChart(lib: Math, mSun: real, mEarth: real, a: real, e: real, g: real,
                                         start: real, end: real, step: real)
    requires Valid(lib) && a != 0.0 && 0.0 <= e < 1.0 && step > 0.0
    ensures var xs := SampleAngles(start, end, step);
      var data := Filtered(ForcePoints(lib, 0.0, mSun, mEarth, a, e, g, xs), ForceCeiling);
      |data| == |xs| && forall i :: 0 <= i < |xs| ==> data[i] == ChartData(xs[i], 0.0)
  {
    var xs := SampleAngles(start, end, step);
    var ps := ForcePoints(lib, 0.0, mSun, mEarth, a, e, g, xs);
    FilteredAll(ps, ForceCeiling);
  }
}
