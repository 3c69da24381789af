/** The floating-point library functions the orbit calculator calls
    (f64::cos, f64::sqrt, f64::atan2, f64::round).

    cos, sqrt and atan2 are not computed in this model: every function that
    needs them takes a `Math` record and relies only on the properties that
    `Valid` lists.  round is exact arithmetic and is defined here. */
module Libm {
  import opened RealArith

  /** std::f64::consts::PI */
  const Pi: real := 3.141592653589793

  /** The transcendental functions used by the physics kernel. */
  datatype Math = Math(cos: real -> real, sqrt: real -> real, atan2: (real, real) -> real)

  /** What the model assumes of the library. */
  ghost predicate Valid(lib: Math) {
    && (forall x :: -1.0 <= lib.cos(x) <= 1.0)
    && lib.cos(0.0) == 1.0
    && lib.cos(Pi) == -1.0
    && (forall x :: 0.0 <= x ==> 0.0 <= lib.sqrt(x) && lib.sqrt(x) * lib.sqrt(x) == x)
    && lib.sqrt(0.0) == 0.0
    && (forall y, x :: -Pi <= lib.atan2(y, x) <= Pi)
    && lib.atan2(0.0, 0.0) == 0.0
  }

  /** f64::round: the nearest integer, halfway cases rounded away from zero. */
  function Round(x: real): (r: int)
    ensures x - 0.5 <= r as real <= x + 0.5
    ensures x >= 0.0 ==> x - 0.5 < r as real
    ensures x < 0.0 ==> r as real < x + 0.5
  {
    if x >= 0.0 then (x + 0.5).Floor else -((0.5 - x).Floor)
  }

  /** Rounding never reverses the order of two non-negative values. */
  lemma RoundMonotone(x: real, y: real)
    requires 0.0 <= x <= y
    ensures Round(x) <= Round(y)
  {
    assert (x + 0.5).Floor <= (y + 0.5).Floor;
  }

  /** sqrt is strictly increasing on the non-negative reals. */
  lemma {:induction false} SqrtStrictlyMonotone(lib: Math, x: real, y: real)
    requires Valid(lib)
    requires 0.0 <= x < y
    ensures lib.sqrt(x) < lib.sqrt(y)
  {
    var sx, sy := lib.sqrt(x), lib.sqrt(y);
    assert sx * sx == x && sy * sy == y;
    SquareLe(sy, sx);
  }

  lemma SqrtMonotone(lib: Math, x: real, y: real)
    requires Valid(lib)
    requires 0.0 <= x <= y
    ensures lib.sqrt(x) <= lib.sqrt(y)
  {
    if x < y {
      SqrtStrictlyMonotone(lib, x, y);
    }
  }

  /** sqrt of a positive number is positive. */
  lemma SqrtPositive(lib: Math, x: real)
    requires Valid(lib)
    requires 0.0 < x
    ensures 0.0 < lib.sqrt(x)
  {
    SqrtStrictlyMonotone(lib, 0.0, x);
  }
}
