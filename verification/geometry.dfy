// Shared vocabulary for all four versions of the game: optional values,
// world points, squared distances, clamping and degree wrap-around.
//
// Every distance test in the game compares `math.hypot(dx, dy)` with a
// non-negative radius R.  For R >= 0, `hypot(dx, dy) < R` holds exactly when
// `dx*dx + dy*dy < R*R`, so the model compares squared distances and never
// needs a square root.

module Geometry {

  datatype Option<T> = None | Some(value: T)

  datatype Point = Point(x: real, y: real)

  /** Squared Euclidean distance between two points. */
  function Dist2(a: Point, b: Point): real
  {
    (a.x - b.x) * (a.x - b.x) + (a.y - b.y) * (a.y - b.y)
  }

  /** `hypot(a - b) < r`, for a radius r >= 0. */
  predicate Within(a: Point, b: Point, r: real)
  {
    r >= 0.0 && Dist2(a, b) < r * r
  }

  /** `hypot(a - b) <= r`, for a radius r >= 0. */
  predicate WithinOrOn(a: Point, b: Point, r: real)
  {
    r >= 0.0 && Dist2(a, b) <= r * r
  }

  /** `max(lo, min(hi, v))`, the clamp every version writes out by hand. */
  function Clamp(v: real, lo: real, hi: real): (r: real)
    requires lo <= hi
    ensures lo <= r <= hi
    ensures lo <= v <= hi ==> r == v
    ensures v < lo ==> r == lo
    ensures v > hi ==> r == hi
  {
    if v < lo then lo else if v > hi then hi else v
  }

  function MinReal(a: real, b: real): real { if a <= b then a else b }
  function MaxReal(a: real, b: real): real { if a >= b then a else b }
  function MaxInt(a: int, b: int): int { if a >= b then a else b }
  function MinInt(a: int, b: int): int { if a <= b then a else b }

  /** `b` to the power `n`. */
  function Pow(b: real, n: nat): real
  {
    if n == 0 then 1.0 else b * Pow(b, n - 1)
  }

  /** Python's `a % 360` on a float angle (floor modulo, never negative). */
  function Wrap360(a: real): (r: real)
    ensures 0.0 <= r < 360.0
    ensures 0.0 <= a < 360.0 ==> r == a
  {
    var k := (a / 360.0).Floor;
    assert k as real <= a / 360.0 < k as real + 1.0;
    a - 360.0 * k as real
  }
}
