/** The sampling shared by the two charts (the get_chart_data functions of
    src/components/orbital_velocity_chart.rs and
    src/components/gravitational_force_with_sun_chart.rs): walk the angle,
    evaluate a curve and keep the points the chart's ceiling lets through. */
module ChartSampling {

  /** A point of a chart: x is the angle, y the plotted value. */
  datatype ChartData = ChartData(x: real, y: real)

  /** The cut-off of a chart: values at most the bound, or strictly below
      it, are charted. */
  datatype Ceiling = AtMost(bound: real) | Below(bound: real)

  predicate Passes(c: Ceiling, y: real) {
    match c
    case AtMost(b) => y <= b
    case Below(b) => y < b
  }

  /** The points whose value passes the ceiling, in their order. */
  function Filtered(points: seq<ChartData>, c: Ceiling): (data: seq<ChartData>)
    ensures |data| <= |points|
  {
    if points == [] then []
    else (if Passes(c, points[0].y) then [points[0]] else []) + Filtered(points[1..], c)
  }

  /** A point is kept exactly when it is one of the points and passes the
      ceiling. */
  lemma {:induction false} FilteredMembership(points: seq<ChartData>, c: Ceiling, d: ChartData)
    ensures d in Filtered(points, c) <==> d in points && Passes(c, d.y)
  {
    if points != [] {
      FilteredMembership(points[1..], c, d);
      assert points == [points[0]] + points[1..];
    }
  }

  /** The x coordinates are strictly increasing. */
  predicate Increasing(points: seq<ChartData>) {
    forall i, j :: 0 <= i < j < |points| ==> points[i].x < points[j].x
  }

  /** Filtering keeps the order of the points. */
  lemma {:induction false} FilteredIncreasing(points: seq<ChartData>, c: Ceiling)
    requires Increasing(points)
    ensures Increasing(Filtered(points, c))
  {
    if points != [] {
      var rest := Filtered(points[1..], c);
      FilteredIncreasing(points[1..], c);
      if Passes(c, points[0].y) {
        forall d | d in rest
          ensures points[0].x < d.x
        {
          HeadBeforeFiltered(points, c, d);
        }
        PrependIncreasing(points[0], rest);
      }
    }
  }

  /** The first point of an increasing sequence comes before every point
      kept from the rest. */
  lemma HeadBeforeFiltered(points: seq<ChartData>, c: Ceiling, d: ChartData)
    requires Increasing(points) && points != [] && d in Filtered(points[1..], c)
    ensures points[0].x < d.x
  {
    FilteredMembership(points[1..], c, d);
    var k :| 0 <= k < |points[1..]| && points[1..][k] == d;
    assert points[0].x < points[k + 1].x;
  }

  /** A point before every point of an increasing sequence can be put in
      front of it. */
  lemma PrependIncreasing(p: ChartData, rest: seq<ChartData>)
    requires Increasing(rest) && forall d :: d in rest ==> p.x < d.x
    ensures Increasing([p] + rest)
  {
    var ps := [p] + rest;
    forall i, j | 0 <= i < j < |ps|
      ensures ps[i].x < ps[j].x
    {
      assert ps[j] == rest[j - 1];
      if i > 0 {
        assert ps[i] == rest[i - 1];
      }
    }
  }

  /** When every value passes, nothing is cut. */
  lemma {:induction false} FilteredAll(points: seq<ChartData>, c: Ceiling)
    requires forall i :: 0 <= i < |points| ==> Passes(c, points[i].y)
    ensures Filtered(points, c) == points
  {
    if points != [] {
      assert Passes(c, points[0].y);
      FilteredAll(points[1..], c);
    }
  }
}
