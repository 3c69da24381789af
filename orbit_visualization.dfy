/** src/components/orbit_visualization.rs: the sampled orbit, its scaling
    onto the canvas and the hover probe. */
module OrbitVisualization {
  import opened Libm
  import opened RealArith
  import opened Radius
  import opened OrbitalVelocity
  import opened GravitationalForceSun
  import opened Int8Cast
  import opened Planet

  /** A sample of the orbit: an angle and the distance from the sun there. */
  datatype RadiusPoint = RadiusPoint(angle: real, radius: real)

  /** A stored orbit: its index and its samples. */
  type StoredOrbit = (Int8, seq<RadiusPoint>)

  // ---------------------------------------------------------------------
  // Sampling

  /** An upper bound on the samples left when sampling from angle to end in
      steps of step; it falls with every step, so sampling terminates. */
  function Remaining(angle: real, end: real, step: real): nat
    requires step > 0.0
  {
    if angle < end then ((end - angle) / step).Floor + 1 else 0
  }

  /** One step forward leaves fewer samples to go. */
  lemma RemainingDecreases(angle: real, end: real, step: real)
    requires step > 0.0 && angle < end
    ensures Remaining(angle + step, end, step) < Remaining(angle, end, step)
  {
    var q := (end - angle) / step;
    var q' := (end - (angle + step)) / step;
    assert q * step == end - angle;
    assert q' * step == end - angle - step;
    assert (q - 1.0) * step == q * step - step;
    CancelFactor(q', q - 1.0, step);
  }

  /** The angles start, start + step, ... that lie below end, in order. */
  function SampleAngles(start: real, end: real, step: real): (xs: seq<real>)
    requires step > 0.0
    ensures (xs == []) == (start >= end)
    ensures start < end ==> xs[0] == start
    decreases Remaining(start, end, step)
  {
    if start < end then
      RemainingDecreases(start, end, step);
      [start] + SampleAngles(start + step, end, step)
    else
      []
  }

  /** Every sampled angle lies in [start, end). */
  lemma {:induction false} SampleAnglesInRange(start: real, end: real, step: real)
    requires step > 0.0
    ensures forall x :: x in SampleAngles(start, end, step) ==> start <= x < end
    decreases Remaining(start, end, step)
  {
    if start < end {
      RemainingDecreases(start, end, step);
      SampleAnglesInRange(start + step, end, step);
    }
  }

  /** Consecutive samples are exactly one step apart. */
  lemma {:induction false} SampleAnglesStep(start: real, end: real, step: real, i: nat)
    requires step > 0.0 && i + 1 < |SampleAngles(start, end, step)|
    ensures SampleAngles(start, end, step)[i + 1] == SampleAngles(start, end, step)[i] + step
    decreases i
  {
    if i > 0 {
      SampleAnglesStep(start + step, end, step, i - 1);
    }
  }

  /** The samples are strictly increasing. */
  lemma {:induction false} SampleAnglesIncreasing(start: real, end: real, step: real, i: nat, j: nat)
    requires step > 0.0 && i < j < |SampleAngles(start, end, step)|
    ensures SampleAngles(start, end, step)[i] < SampleAngles(start, end, step)[j]
    decreases j - i
  {
    SampleAnglesStep(start, end, step, j - 1);
    if i < j - 1 {
      SampleAnglesIncreasing(start, end, step, i, j - 1);
    }
  }

  /** The points of an orbit at the given angles: each carries its own angle
      and the conic radius at that angle. */
  function OrbitPoints(lib: Math, a: real, e: real, angles: seq<real>): (ps: seq<RadiusPoint>)
    requires Valid(lib) && 0.0 <= e < 1.0
    ensures |ps| == |angles|
    ensures forall i :: 0 <= i < |angles| ==> ps[i] == RadiusPoint(angles[i], CalculateRadius(lib, a, e, angles[i]))
  {
    if angles == [] then [] else [RadiusPoint(angles[0], CalculateRadius(lib, a, e, angles[0]))] + OrbitPoints(lib, a, e, angles[1..])
  }

  /** One step of the walk over the samples: the angle is the next sample,
      its point is the next orbit point, and fewer samples remain. */
  lemma SampleStep(lib: Math, a: real, e: real, start: real, angle: real, end: real, step: real, done: seq<real>)
    requires Valid(lib) && 0.0 <= e < 1.0 && step > 0.0 && angle < end
    requires SampleAngles(start, end, step) == done + SampleAngles(angle, end, step)
    ensures SampleAngles(start, end, step) == (done + [angle]) + SampleAngles(angle + step, end, step)
    ensures |SampleAngles(angle + step, end, step)| < |SampleAngles(angle, end, step)|
    ensures OrbitPoints(lib, a, e, done + [angle]) == OrbitPoints(lib, a, e, done) + [RadiusPoint(angle, CalculateRadius(lib, a, e, angle))]
  {
    RemainingDecreases(angle, end, step);
    assert done + ([angle] + SampleAngles(angle + step, end, step)) == (done + [angle]) + SampleAngles(angle + step, end, step);
  }

  /** get_radius_points: walk the angle from start in steps of step while it
      is below end, pushing the point at each angle. */
  method GetRadiusPoints(lib: Math, a: real, e: real, start: real, end: real, step: real) returns (data: seq<RadiusPoint>)
    requires Valid(lib) && 0.0 <= e < 1.0 && step > 0.0
    ensures data == OrbitPoints(lib, a, e, SampleAngles(start, end, step))
  {
    data := [];
    var angle := start;
    ghost var done: seq<real> := [];
    while angle < end
      invariant SampleAngles(start, end, step) == done + SampleAngles(angle, end, step)
      invariant data == OrbitPoints(lib, a, e, done)
      decreases |SampleAngles(angle, end, step)|
    {
      SampleStep(lib, a, e, start, angle, end, step, done);
      var radius := CalculateRadius(lib, a, e, angle);
      data := data + [RadiusPoint(angle, radius)];
      done := done + [angle];
      angle := angle + step;
    }
  }

  // ---------------------------------------------------------------------
  // Normalisation

  /** f64::min */
  function Min(x: real, y: real): (r: real)
    ensures r <= x && r <= y && (r == x || r == y)
  {
    if x <= y then x else y
  }

  /** The largest radius of a non-empty series (max_by over the radii). */
  function MaxRadius(ps: seq<RadiusPoint>): (m: real)
    requires |ps| > 0
    ensures exists i :: 0 <= i < |ps| && ps[i].radius == m
    ensures forall i :: 0 <= i < |ps| ==> ps[i].radius <= m
  {
    if |ps| == 1 then ps[0].radius
    else
      var m := MaxRadius(ps[..|ps| - 1]);
      if ps[|ps| - 1].radius >= m then ps[|ps| - 1].radius else m
  }

  /** A radius mapped onto the canvas: (radius / max) * min(h, w) / 2.  The
      centre stays at the centre, the maximum lands on the edge of the
      drawable square, and the map is linear in the radius. */
  function Scale(radius: real, maxRadius: real, height: real, width: real): (s: real)
    requires maxRadius != 0.0
    ensures radius == 0.0 ==> s == 0.0
    ensures radius == maxRadius ==> s == Min(height, width) / 2.0
    ensures radius == -maxRadius ==> s == -Min(height, width) / 2.0
  {
    (radius / maxRadius) * Min(height, width) / 2.0
  }

  /** One series mapped onto the canvas: the same number of points in the
      same order, every angle kept and every radius scaled. */
  function ScaleSeries(ps: seq<RadiusPoint>, maxRadius: real, height: real, width: real): (r: seq<RadiusPoint>)
    requires maxRadius != 0.0
    ensures |r| == |ps|
    ensures forall i :: 0 <= i < |ps| ==>
      r[i].angle == ps[i].angle && r[i].radius == Scale(ps[i].radius, maxRadius, height, width)
  {
    seq(|ps|, i requires 0 <= i < |ps| => ps[i].(radius := Scale(ps[i].radius, maxRadius, height, width)))
  }

  /** Every stored series mapped onto the canvas with one scale: the same
      series in the same order, each keeping its index. */
  function ScaleStored(stored: seq<StoredOrbit>, maxRadius: real, height: real, width: real): (r: seq<StoredOrbit>)
    requires maxRadius != 0.0
    ensures |r| == |stored|
    ensures forall i :: 0 <= i < |stored| ==>
      r[i].0 == stored[i].0 && |r[i].1| == |stored[i].1| && r[i].1 == ScaleSeries(stored[i].1, maxRadius, height, width)
  {
    seq(|stored|, i requires 0 <= i < |stored| => (stored[i].0, ScaleSeries(stored[i].1, maxRadius, height, width)))
  }

  /** normalize_radius_points: the scale is the largest radius of the live
      series alone.  With no live points nothing changes and the result is
      0; otherwise every radius of every stored series and of the live series
      is mapped onto the canvas with that one scale (angles, counts, order and
      series indices untouched) and the scale is returned. */
  method NormalizeRadiusPoints(stored: array<StoredOrbit>, live: array<RadiusPoint>, height: real, width: real)
    returns (maxRadius: real)
    requires live.Length > 0 ==> MaxRadius(live[..]) != 0.0
    modifies stored, live
    ensures live.Length == 0 ==> maxRadius == 0.0 && stored[..] == old(stored[..]) && live[..] == old(live[..])
    ensures live.Length > 0 ==>
      && maxRadius == MaxRadius(old(live[..]))
      && live[..] == ScaleSeries(old(live[..]), maxRadius, height, width)
      && stored[..] == ScaleStored(old(stored[..]), maxRadius, height, width)
  {
    if live.Length == 0 {
      return 0.0;
    }
    maxRadius := MaxRadius(live[..]);
    ghost var stored0, live0 := stored[..], live[..];
    var s := 0;
    while s < stored.Length
      invariant 0 <= s <= stored.Length
      invariant forall t :: 0 <= t < s ==> stored[t] == (stored0[t].0, ScaleSeries(stored0[t].1, maxRadius, height, width))
      invariant forall t :: s <= t < stored.Length ==> stored[t] == stored0[t]
      modifies stored
    {
      var (index, points) := stored[s];
      var scaled := ScaleInPlace(points, maxRadius, height, width);
      stored[s] := (index, scaled);
      s := s + 1;
    }
    assert stored[..] == ScaleStored(stored0, maxRadius, height, width);
    var j := 0;
    while j < live.Length
      invariant 0 <= j <= live.Length
      invariant forall t :: 0 <= t < j ==> live[t] == live0[t].(radius := Scale(live0[t].radius, maxRadius, height, width))
      invariant forall t :: j <= t < live.Length ==> live[t] == live0[t]
      modifies live
    {
      live[j] := live[j].(radius := Scale(live[j].radius, maxRadius, height, width));
      j := j + 1;
    }
    assert live[..] == ScaleSeries(live0, maxRadius, height, width);
  }

  /** The inner loop over one stored series, point by point. */
  method ScaleInPlace(points: seq<RadiusPoint>, maxRadius: real, height: real, width: real) returns (scaled: seq<RadiusPoint>)
    requires maxRadius != 0.0
    ensures scaled == ScaleSeries(points, maxRadius, height, width)
  {
    scaled := points;
    var j := 0;
    while j < |scaled|
      invariant 0 <= j <= |scaled| == |points|
      invariant forall t :: 0 <= t < j ==> scaled[t] == points[t].(radius := Scale(points[t].radius, maxRadius, height, width))
      invariant forall t :: j <= t < |points| ==> scaled[t] == points[t]
    {
      scaled := scaled[j := scaled[j].(radius := Scale(scaled[j].radius, maxRadius, height, width))];
      j := j + 1;
    }
  }

  /** The largest live radius lands exactly on min(h, w) / 2, the edge of
      the drawable square. */
  lemma {:induction false} PeakOnEdge(ps: seq<RadiusPoint>, height: real, width: real)
    requires |ps| > 0 && MaxRadius(ps) != 0.0
    ensures exists i :: (0 <= i < |ps|
      && ScaleSeries(ps, MaxRadius(ps), height, width)[i].radius == Min(height, width) / 2.0)
  {
    var m := MaxRadius(ps);
    var i :| 0 <= i < |ps| && ps[i].radius == m;
    assert m / m == 1.0;
    assert ScaleSeries(ps, m, height, width)[i].radius == Min(height, width) / 2.0;
  }

  /** With a positive scale and a canvas of non-negative size, every scaled
      live radius is at most min(h, w) / 2, and non-negative radii stay
      non-negative. */
  lemma {:induction false} ScaledWithinCanvas(ps: seq<RadiusPoint>, height: real, width: real, i: nat)
    requires |ps| > 0 && MaxRadius(ps) > 0.0 && height >= 0.0 && width >= 0.0 && i < |ps|
    ensures ScaleSeries(ps, MaxRadius(ps), height, width)[i].radius <= Min(height, width) / 2.0
    ensures ps[i].radius >= 0.0 ==> ScaleSeries(ps, MaxRadius(ps), height, width)[i].radius >= 0.0
  {
    var m := MaxRadius(ps);
    assert ps[i].radius <= m;
    assert ScaleSeries(ps, m, height, width)[i].radius == Scale(ps[i].radius, m, height, width);
    ScaleBounds(ps[i].radius, m, height, width);
  }

  /** (radius / max) * min(h, w) / 2 lies in [0, min(h, w) / 2] for
      0 <= radius <= max. */
  lemma ScaleBounds(radius: real, maxRadius: real, height: real, width: real)
    requires 0.0 < maxRadius && radius <= maxRadius && height >= 0.0 && width >= 0.0
    ensures Scale(radius, maxRadius, height, width) <= Min(height, width) / 2.0
    ensures radius >= 0.0 ==> Scale(radius, maxRadius, height, width) >= 0.0
  {
    var q := radius / maxRadius;
    var side := Min(height, width);
    DivLeNum(radius, maxRadius, maxRadius);
    assert q <= 1.0;
    MulLe(side, q, 1.0);
    assert q * side == side * q;
    if radius >= 0.0 {
      DivNonNeg(radius, maxRadius);
      MulNonNeg(q, side);
    }
  }

  /** The scale can be undone: multiplying a scaled radius by
      2 max / min(h, w) gives back the original. */
  lemma ScaleRoundTrip(radius: real, maxRadius: real, height: real, width: real)
    requires maxRadius != 0.0 && Min(height, width) != 0.0
    ensures Scale(radius, maxRadius, height, width) * 2.0 / Min(height, width) * maxRadius == radius
  {
    var side := Min(height, width);
    var q := radius / maxRadius;
    assert Scale(radius, maxRadius, height, width) * 2.0 == q * side;
    QuotientOfProduct(q, side);
    QuotientSign(radius, if maxRadius > 0.0 then maxRadius else -maxRadius);
  }

  // ---------------------------------------------------------------------
  // Hover probe

  /** What the info box shows: whether the cursor is over the canvas, the
      angle under it and the radius, speed and force there. */
  datatype HoverInfo = HoverInfo(shown: bool, angle: real, radius: real, velocity: real, force: real)

  /** The state with the info box hidden. */
  const Hidden: HoverInfo := HoverInfo(false, 0.0, 0.0, 0.0, 0.0)

  /** The cursor lies in the closed rectangle of the canvas. */
  predicate OverCanvas(width: real, height: real, canvasX: real, canvasY: real) {
    canvasX >= 0.0 && canvasX <= width && canvasY >= 0.0 && canvasY <= height
  }

  /** The probe of mouse_hover: over the canvas, the angle is atan2 of the
      cursor's offset from the centre and radius, speed and force are all
      computed at that same angle; off the canvas the box is hidden. */
  function MouseProbe(lib: Math, planet: PlanetValues, width: real, height: real, canvasX: real, canvasY: real): (h: HoverInfo)
    requires Valid(lib)
    requires OverCanvas(width, height, canvasX, canvasY) ==> planet.a != 0.0 && 0.0 <= planet.e < 1.0
    ensures !OverCanvas(width, height, canvasX, canvasY) ==> h == Hidden
    ensures OverCanvas(width, height, canvasX, canvasY) ==>
      && h.shown
      && h.angle == lib.atan2(canvasY - height / 2.0, canvasX - width / 2.0)
      && -Pi <= h.angle <= Pi
      && h.radius == CalculateRadius(lib, planet.a, planet.e, h.angle)
      && h.velocity == CalculateOrbitalVelocity(lib, planet.a, planet.e, planet.mSun, planet.g, h.angle)
      && h.force == CalculateGravitationalForceWithSun(lib, planet.mObject, planet.mSun, planet.mEarth, planet.a, planet.e, planet.g, h.angle)
  {
    if OverCanvas(width, height, canvasX, canvasY) then
      var x := canvasX - width / 2.0;
      var y := canvasY - height / 2.0;
      var angle := lib.atan2(y, x);
      HoverInfo(true, angle,
                CalculateRadius(lib, planet.a, planet.e, angle),
                CalculateOrbitalVelocity(lib, planet.a, planet.e, planet.mSun, planet.g, angle),
                CalculateGravitationalForceWithSun(lib, planet.mObject, planet.mSun, planet.mEarth, planet.a, planet.e, planet.g, angle))
    else
      Hidden
  }

  /** Over the canvas the probed radius lies between periapsis and
      apoapsis. */
  lemma ProbeWithinOrbit(lib: Math, planet: PlanetValues, width: real, height: real, canvasX: real, canvasY: real)
    requires Valid(lib) && BoundOrbit(planet.a, planet.e)
    requires OverCanvas(width, height, canvasX, canvasY)
    ensures var h := MouseProbe(lib, planet, width, height, canvasX, canvasY);
      planet.a * (1.0 - planet.e) <= h.radius <= planet.a * (1.0 + planet.e)
  {
    RadiusBounds(lib, planet.a, planet.e, MouseProbe(lib, planet, width, height, canvasX, canvasY).angle);
  }

  /** At the centre of the canvas the offset is (0, 0), atan2 gives angle 0
      and the probe reports the periapsis distance. */
  lemma ProbeAtCentre(lib: Math, planet: PlanetValues, width: real, height: real)
    requires Valid(lib) && width >= 0.0 && height >= 0.0 && planet.a != 0.0 && 0.0 <= planet.e < 1.0
    ensures var h := MouseProbe(lib, planet, width, height, width / 2.0, height / 2.0);
      h.shown && h.angle == 0.0 && h.radius == planet.a * (1.0 - planet.e)
  {
    PeriapsisRadius(lib, planet.a, planet.e);
  }
}
