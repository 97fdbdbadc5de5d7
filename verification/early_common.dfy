// Pieces that main.py, spacinator.py and test.py write out identically:
// the asteroid size table, the asteroid record, `damage`, `limit_position`,
// the rejection loop of `generate_asteroid_position`, the damped blend that
// steers an enemy, and the displacement of split children.

module EarlyCommon {
  import opened Geometry

  /** `ASTEROID_SIZES`: the width of a large, medium and small asteroid. */
  const AsteroidSizes: seq<int> := [40, 30, 25]
  /** Tier index of the smallest asteroid, `len(ASTEROID_SIZES) - 1`. */
  const SmallestTier: int := 2
  /** Resource types 0..2, one per entry of `RESOURCE_COLORS`. */
  const ResourceTypes: int := 3

  function Abs(v: real): real { if v < 0.0 then -v else v }

  lemma {:induction false} PowBetween01(b: real, n: nat)
    requires 0.0 <= b <= 1.0
    ensures 0.0 <= Pow(b, n) <= 1.0
  {
    if n > 0 {
      PowBetween01(b, n - 1);
      assert b * Pow(b, n - 1) <= 1.0 * Pow(b, n - 1);
    }
  }

  /** Scaling by a factor in [0, 1] keeps a value inside a symmetric bound. */
  lemma ScaleWithin(v: real, p: real, m: real)
    requires 0.0 <= p <= 1.0 && -m <= v <= m
    ensures -m <= v * p <= m
  {
    var b := 1.0 - p;
    if v >= 0.0 {
      assert v * b >= 0.0;
      assert v * p >= 0.0;
      assert v * p == v - v * b;
    } else {
      var a := -v;
      assert a * b >= 0.0;
      assert a * p >= 0.0;
      assert v * p == v + a * b;
      assert v * p == -(a * p);
    }
  }

  /** An asteroid: map position, tier (0 large .. 2 small), velocity and health. */
  datatype Rock = Rock(pos: Point, sizeIndex: int, speed: Point, health: real)

  /** What `split_asteroid` returns: smaller asteroids, or resources of a type. */
  datatype Piece = Chunk(rock: Rock) | Pickup(pos: Point, kind: int)

  /** Scaling a unit direction by `dist` gives a vector of squared length `dist * dist`. */
  lemma UnitScale(dir: Point, dist: real)
    requires dir.x * dir.x + dir.y * dir.y == 1.0
    ensures (dir.x * dist) * (dir.x * dist) + (dir.y * dist) * (dir.y * dist) == dist * dist
  {
    calc {
      (dir.x * dist) * (dir.x * dist) + (dir.y * dist) * (dir.y * dist);
      (dir.x * dir.x + dir.y * dir.y) * (dist * dist);
    }
  }

  /**
   * The point `dist` away from `p` along the direction `(cos a, sin a)`:
   * along a unit direction it lies exactly `dist` from `p`.
   */
  function Offset(p: Point, dir: Point, dist: real): (r: Point)
    ensures dir.x * dir.x + dir.y * dir.y == 1.0 ==> Dist2(r, p) == dist * dist
  {
    if dir.x * dir.x + dir.y * dir.y == 1.0 then UnitScale(dir, dist); Point(p.x + dir.x * dist, p.y + dir.y * dist)
    else Point(p.x + dir.x * dist, p.y + dir.y * dist)
  }

  // ---------------------------------------------------------------------
  // damage(amount)
  // ---------------------------------------------------------------------

  /**
   * `damage` on an asteroid or enemy: the health drops by the amount and
   * the answer is whether it has reached zero.  Health is not clamped.
   */
  function TakeHit(health: real, amount: real): (r: (real, bool))
    ensures r.0 < health <==> amount > 0.0
    ensures r.1 <==> health <= amount
  {
    var left := health - amount;
    (left, left <= 0.0)
  }

  /** Health after `k` equal hits. */
  function HitTimes(health: real, amount: real, k: nat): real
  {
    if k == 0 then health else TakeHit(HitTimes(health, amount, k - 1), amount).0
  }

  /** After k hits of a given amount the target is destroyed iff k times the amount covers its health. */
  lemma {:induction false} HitsToDestroy(health: real, amount: real, k: nat)
    ensures HitTimes(health, amount, k) == health - k as real * amount
    ensures HitTimes(health, amount, k) <= 0.0 <==> k as real * amount >= health
  {
    if k > 0 {
      HitsToDestroy(health, amount, k - 1);
    }
  }

  /** `Asteroid.damage`: the asteroid with its health lowered, and whether it is destroyed. */
  function DamageRock(a: Rock, amount: real): (r: (Rock, bool))
    ensures r.0 == a.(health := a.health - amount)
    ensures r.1 <==> r.0.health <= 0.0
  {
    var (h, dead) := TakeHit(a.health, amount);
    (a.(health := h), dead)
  }

  // ---------------------------------------------------------------------
  // limit_position (spacinator.py and test.py)
  // ---------------------------------------------------------------------

  /** `limit_position`: each coordinate clamped into [0, max]. */
  function LimitPosition(p: Point, maxWidth: real, maxHeight: real): (r: Point)
    ensures maxWidth >= 0.0 ==> 0.0 <= r.x <= maxWidth
    ensures maxHeight >= 0.0 ==> 0.0 <= r.y <= maxHeight
    ensures 0.0 <= p.x <= maxWidth && 0.0 <= p.y <= maxHeight ==> r == p
    ensures maxWidth >= 0.0 && p.x > maxWidth ==> r.x == maxWidth
    ensures p.x < 0.0 || maxWidth < 0.0 ==> r.x == 0.0
    ensures maxHeight >= 0.0 && p.y > maxHeight ==> r.y == maxHeight
    ensures p.y < 0.0 || maxHeight < 0.0 ==> r.y == 0.0
  {
    Point(MaxReal(0.0, MinReal(p.x, maxWidth)), MaxReal(0.0, MinReal(p.y, maxHeight)))
  }

  /** Limiting twice is limiting once, whatever the bounds. */
  lemma LimitIdempotent(p: Point, maxWidth: real, maxHeight: real)
    ensures LimitPosition(LimitPosition(p, maxWidth, maxHeight), maxWidth, maxHeight) == LimitPosition(p, maxWidth, maxHeight)
  {
  }

  // ---------------------------------------------------------------------
  // generate_asteroid_position (spacinator.py and test.py)
  // ---------------------------------------------------------------------

  /** A drawn point strictly farther than `clearance` from the player. */
  predicate ClearOf(c: Point, player: Point, clearance: real)
  {
    !WithinOrOn(c, player, clearance)
  }

  /** The first of `draws[k]`, `draws[k + 1]`, ... that is clear of the player, if any. */
  function FirstClear(player: Point, draws: seq<Point>, clearance: real, k: nat): (r: Option<Point>)
    requires k <= |draws|
    ensures r.None? <==> forall j :: k <= j < |draws| ==> !ClearOf(draws[j], player, clearance)
    ensures r.Some? ==>
      exists j :: k <= j < |draws| && draws[j] == r.value && ClearOf(draws[j], player, clearance) &&
        forall m :: k <= m < j ==> !ClearOf(draws[m], player, clearance)
    decreases |draws| - k
  {
    if k == |draws| then None
    else if ClearOf(draws[k], player, clearance) then Some(draws[k])
    else FirstClear(player, draws, clearance, k + 1)
  }

  /** Some draw is clear of the player, so the draw loop ends. */
  predicate HasClear(player: Point, draws: seq<Point>, clearance: real)
  {
    exists k :: 0 <= k < |draws| && ClearOf(draws[k], player, clearance)
  }

  /** The spots a run of draw loops yields, in order; a loop with no clear draw yields none. */
  function ClearSpots(player: Point, draws: seq<seq<Point>>, clearance: real): (r: seq<Point>)
    ensures |r| <= |draws|
    ensures forall k :: 0 <= k < |r| ==> ClearOf(r[k], player, clearance)
    ensures |r| == |draws| <==> forall k :: 0 <= k < |draws| ==> HasClear(player, draws[k], clearance)
    decreases |draws|
  {
    if draws == [] then []
    else
      var front := ClearSpots(player, draws[..|draws| - 1], clearance);
      match FirstClear(player, draws[|draws| - 1], clearance, 0)
      case None => front
      case Some(c) => front + [c]
  }

  /**
   * `generate_asteroid_position`: draw screen points until one lies more
   * than `clearance` (150 or 200) from the player.  `draws` are the points
   * the game would draw in order; when none of them is clear the game would
   * keep drawing, and the result is None.
   */
  method GenerateAsteroidPosition(player: Point, draws: seq<Point>, clearance: real) returns (r: Option<Point>)
    requires clearance >= 0.0
    ensures r == FirstClear(player, draws, clearance, 0)
    ensures r.None? <==> forall k :: 0 <= k < |draws| ==> !ClearOf(draws[k], player, clearance)
    ensures r.Some? ==>
      exists k :: 0 <= k < |draws| && draws[k] == r.value &&
        (forall j :: 0 <= j < k ==> !ClearOf(draws[j], player, clearance))
    ensures r.Some? ==> Dist2(r.value, player) > clearance * clearance
  {
    var k := 0;
    while k < |draws|
      invariant 0 <= k <= |draws|
      invariant forall j :: 0 <= j < k ==> !ClearOf(draws[j], player, clearance)
      invariant FirstClear(player, draws, clearance, 0) == FirstClear(player, draws, clearance, k)
    {
      if ClearOf(draws[k], player, clearance) {
        return Some(draws[k]);
      }
      k := k + 1;
    }
    return None;
  }

  // ---------------------------------------------------------------------
  // Enemy.update, velocity part (main.py and test.py)
  // ---------------------------------------------------------------------

  /**
   * The enemy's new velocity on one axis: when it has a target at nonzero
   * distance it moves `factor` of the way toward the target velocity
   * `aim`, and then the result is clamped into [-max, max].
   */
  function Steer(speed: real, aim: Option<real>, factor: real, max: real): (r: real)
    requires max >= 0.0
    ensures -max <= r <= max
    ensures aim.None? && -max <= speed <= max ==> r == speed
  {
    var blended := if aim.Some? then speed + (aim.value - speed) * factor else speed;
    Clamp(blended, -max, max)
  }

  /**
   * Inside the speed limit the blend never needs the clamp: the gap to
   * the target velocity shrinks by exactly the factor every frame.
   */
  lemma SteerClosesGap(speed: real, aim: real, factor: real, max: real)
    requires max >= 0.0 && 0.0 <= factor <= 1.0
    requires -max <= speed <= max && -max <= aim <= max
    ensures Steer(speed, Some(aim), factor, max) - aim == (1.0 - factor) * (speed - aim)
  {
    var b := speed + (aim - speed) * factor;
    assert b == (1.0 - factor) * speed + factor * aim;
    assert (1.0 - factor) * speed <= (1.0 - factor) * max;
    assert (1.0 - factor) * speed >= (1.0 - factor) * -max;
    assert factor * aim <= factor * max;
    assert factor * aim >= factor * -max;
  }
}
