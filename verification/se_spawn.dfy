// Spawn placement in space_exp.py.  Each spawner draws random candidate
// positions and rejects those inside an exclusion zone, with a bounded
// number of retries.  The random draws are parameters: `draws[k]` is the
// position the game would draw on its k-th try.

module SpaceExpSpawn {
  import opened Geometry
  import opened SpaceExpEntities
  import opened SpaceExpWorld

  const SafezoneRadius: real := 500.0
  const MiningZoneRadius: real := 300.0
  const StealthChance: real := 0.1

  /** A mining safezone: a circle where enemies are culled and NPCs mine. */
  datatype Zone = Zone(center: Point, radius: real)

  /** Inside one of the mining zones (strictly within its radius). */
  predicate InAnyZone(p: Point, zones: seq<Zone>)
  {
    exists i :: 0 <= i < |zones| && Within(p, zones[i].center, zones[i].radius)
  }

  // ---------------------------------------------------------------------
  // Asteroids
  // ---------------------------------------------------------------------

  /** Where a general asteroid may appear: outside the station's safezone, every mining zone and the base's proximity. */
  predicate AsteroidSpotOk(c: Point, station: Point, zones: seq<Zone>, base: Option<EnemyBase>)
  {
    !Within(c, station, SafezoneRadius) && !InAnyZone(c, zones) &&
    (base.None? || !Within(c, base.value.pos, ProximityRadius))
  }

  /**
   * `spawn_asteroid`.  In a mining zone the asteroid goes at the drawn point
   * unchecked and joins that zone's group too.  Elsewhere the first of at
   * most five checked draws that passes `AsteroidSpotOk` is used, and after
   * five rejections nothing is added (the game draws a sixth point it never
   * checks).  The asteroid is stealthy when its roll is below 0.1.
   */
  method SpawnAsteroid(asteroids: seq<Asteroid>, inZone: Option<nat>, station: Point, zones: seq<Zone>,
                       base: Option<EnemyBase>, draws: seq<Point>, size: int, stealthRoll: real)
    returns (result: seq<Asteroid>)
    requires |draws| == 6
    ensures inZone.Some? ==>
      result == asteroids + [NewAsteroid(draws[0], size, stealthRoll < StealthChance, inZone)]
    ensures inZone.None? && (forall k :: 0 <= k < 5 ==> !AsteroidSpotOk(draws[k], station, zones, base)) ==>
      result == asteroids
    ensures inZone.None? && result != asteroids ==>
      exists k :: 0 <= k < 5 && AsteroidSpotOk(draws[k], station, zones, base) &&
        (forall j :: 0 <= j < k ==> !AsteroidSpotOk(draws[j], station, zones, base)) &&
        result == asteroids + [NewAsteroid(draws[k], size, stealthRoll < StealthChance, None)]
    ensures inZone.None? && (exists k :: 0 <= k < 5 && AsteroidSpotOk(draws[k], station, zones, base)) ==>
      |result| == |asteroids| + 1
  {
    var spot := draws[0];
    if inZone.None? {
      var attempts := 0;
      while attempts < 5 && !AsteroidSpotOk(spot, station, zones, base)
        invariant 0 <= attempts <= 5
        invariant spot == draws[attempts]
        invariant forall j :: 0 <= j < attempts ==> !AsteroidSpotOk(draws[j], station, zones, base)
      {
        attempts := attempts + 1;
        spot := draws[attempts];
      }
      if attempts == 5 {
        return asteroids;
      }
    }
    result := asteroids + [NewAsteroid(spot, size, stealthRoll < StealthChance, inZone)];
  }

  // ---------------------------------------------------------------------
  // Enemies
  // ---------------------------------------------------------------------

  datatype Side = Top | Bottom | Left | Right

  const SpawnMargin: real := 100.0

  /**
   * A point 100 units beyond one edge of the screen; `offset` is the random
   * coordinate along that edge (0..800 across, 0..600 down).
   */
  function EdgePoint(camera: Point, side: Side, offset: int): Point
  {
    match side
    case Top => Point(camera.x + offset as real, camera.y - SpawnMargin)
    case Bottom => Point(camera.x + offset as real, camera.y + ScreenHeight + SpawnMargin)
    case Left => Point(camera.x - SpawnMargin, camera.y + offset as real)
    case Right => Point(camera.x + ScreenWidth + SpawnMargin, camera.y + offset as real)
  }

  /** Enemies appear off screen: at zoom 1 an enemy narrower than the margin is not yet visible. */
  lemma EdgePointOffScreen(camera: Point, side: Side, offset: int, radius: real)
    requires 0.0 <= radius < SpawnMargin
    ensures !IsVisibleOnScreen(EdgePoint(camera, side, offset), radius, camera, false)
  {
  }

  /** Where an enemy may appear: outside the safezone, the mining zones, and 100 units clear of the base. */
  predicate EnemySpotOk(c: Point, station: Point, zones: seq<Zone>, base: Option<EnemyBase>)
  {
    !Within(c, station, SafezoneRadius) && !InAnyZone(c, zones) &&
    (base.None? || !Within(c, base.value.pos, base.value.size as real + 100.0))
  }

  /** The enemy type from the spawn roll: 20% elite, the next 30% fast, the rest regular. */
  function EnemyKindFor(roll: real): (k: EnemyKind)
    ensures k == Elite <==> roll < 0.2
    ensures k == Fast <==> 0.2 <= roll < 0.5
    ensures k == Regular <==> roll >= 0.5
  {
    if roll < 0.2 then Elite else if roll < 0.2 + 0.3 then Fast else Regular
  }

  /**
   * `spawn_enemy`: up to ten draws, each rejected when it falls in the
   * station's safezone, a mining zone or next to the base; the first
   * acceptable draw gets an enemy of the rolled type, and ten rejections
   * add nothing.
   */
  method SpawnEnemy(enemies: seq<Enemy>, camera: Point, station: Point, zones: seq<Zone>,
                    base: Option<EnemyBase>, draws: seq<(Side, int)>, roll: real)
    returns (result: seq<Enemy>)
    requires |draws| == 10
    ensures (forall k :: 0 <= k < 10 ==> !EnemySpotOk(EdgePoint(camera, draws[k].0, draws[k].1), station, zones, base)) ==>
      result == enemies
    ensures result != enemies ==>
      exists k :: 0 <= k < 10 &&
        EnemySpotOk(EdgePoint(camera, draws[k].0, draws[k].1), station, zones, base) &&
        (forall j :: 0 <= j < k ==> !EnemySpotOk(EdgePoint(camera, draws[j].0, draws[j].1), station, zones, base)) &&
        result == enemies + [NewEnemy(EnemyKindFor(roll), EdgePoint(camera, draws[k].0, draws[k].1))]
    ensures (exists k :: 0 <= k < 10 && EnemySpotOk(EdgePoint(camera, draws[k].0, draws[k].1), station, zones, base)) ==>
      |result| == |enemies| + 1
  {
    var attempts := 0;
    while attempts < 10
      invariant 0 <= attempts <= 10
      invariant forall j :: 0 <= j < attempts ==> !EnemySpotOk(EdgePoint(camera, draws[j].0, draws[j].1), station, zones, base)
    {
      var c := EdgePoint(camera, draws[attempts].0, draws[attempts].1);
      if Within(c, station, SafezoneRadius) {
        attempts := attempts + 1;
        continue;
      }
      if InAnyZone(c, zones) {
        attempts := attempts + 1;
        continue;
      }
      if base.Some? && Within(c, base.value.pos, base.value.size as real + 100.0) {
        attempts := attempts + 1;
        continue;
      }
      return enemies + [NewEnemy(EnemyKindFor(roll), c)];
    }
    return enemies;
  }

  // ---------------------------------------------------------------------
  // Mining zones and the enemy base
  // ---------------------------------------------------------------------

  /** A zone centre must keep 1000 units from the station and 1700 from the base. */
  predicate ZoneSpotOk(c: Point, station: Point, base: Option<EnemyBase>)
  {
    !Within(c, station, SafezoneRadius + MiningZoneRadius + 200.0) &&
    (base.None? || !Within(c, base.value.pos, ProximityRadius + MiningZoneRadius + 200.0))
  }

  /** Some of the five checked draws for one zone is acceptable. */
  predicate HasZoneSpot(ds: seq<Point>, station: Point, base: Option<EnemyBase>)
    requires |ds| >= 5
  {
    exists k :: 0 <= k < 5 && ZoneSpotOk(ds[k], station, base)
  }

  /** The first acceptable draw among `ds[k]`, ..., `ds[4]`, if any. */
  function FirstZoneSpot(ds: seq<Point>, station: Point, base: Option<EnemyBase>, k: nat): (r: Option<Point>)
    requires k <= 5 <= |ds|
    ensures r.Some? <==> exists j :: k <= j < 5 && ZoneSpotOk(ds[j], station, base)
    ensures r.Some? ==>
      exists j :: k <= j < 5 && r.value == ds[j] && ZoneSpotOk(ds[j], station, base) &&
        forall m :: k <= m < j ==> !ZoneSpotOk(ds[m], station, base)
    decreases 5 - k
  {
    if k == 5 then None
    else if ZoneSpotOk(ds[k], station, base) then Some(ds[k])
    else FirstZoneSpot(ds, station, base, k + 1)
  }

  /** The zones the draws place, in order: one per draw list that has an acceptable spot among its first five. */
  function PlacedZones(draws: seq<seq<Point>>, station: Point, base: Option<EnemyBase>): (r: seq<Zone>)
    requires forall i :: 0 <= i < |draws| ==> |draws[i]| >= 5
    ensures |r| <= |draws|
    ensures forall z :: z in r ==> z.radius == MiningZoneRadius && ZoneSpotOk(z.center, station, base)
    ensures |r| == |draws| <==> forall i :: 0 <= i < |draws| ==> HasZoneSpot(draws[i], station, base)
    decreases |draws|
  {
    if draws == [] then []
    else
      var front := PlacedZones(draws[..|draws| - 1], station, base);
      match FirstZoneSpot(draws[|draws| - 1], station, base, 0)
      case None => front
      case Some(c) => front + [Zone(c, MiningZoneRadius)]
  }

  /**
   * `spawn_mining_zones`: three zones, each placed at the first of at most
   * five checked draws that keeps clear of the station and the base, and
   * skipped when all five are rejected.  Zones are not checked against each
   * other.
   */
  method SpawnMiningZones(station: Point, base: Option<EnemyBase>, draws: seq<seq<Point>>)
    returns (zones: seq<Zone>)
    requires |draws| == 3 && forall i :: 0 <= i < 3 ==> |draws[i]| == 6
    ensures zones == PlacedZones(draws, station, base)
    ensures |zones| <= 3
    ensures forall z :: z in zones ==> z.radius == MiningZoneRadius && ZoneSpotOk(z.center, station, base)
    ensures (forall i :: 0 <= i < 3 ==> HasZoneSpot(draws[i], station, base)) ==> |zones| == 3
  {
    zones := [];
    var i := 0;
    while i < 3
      invariant 0 <= i <= 3
      invariant zones == PlacedZones(draws[..i], station, base)
    {
      var c := draws[i][0];
      var attempts := 0;
      while attempts < 5 && !ZoneSpotOk(c, station, base)
        invariant 0 <= attempts <= 5
        invariant c == draws[i][attempts]
        invariant FirstZoneSpot(draws[i], station, base, 0) == FirstZoneSpot(draws[i], station, base, attempts)
      {
        attempts := attempts + 1;
        c := draws[i][attempts];
      }
      assert draws[..i + 1][..i] == draws[..i];
      if attempts < 5 {
        zones := zones + [Zone(c, MiningZoneRadius)];
      }
      i := i + 1;
    }
    assert draws[..3] == draws;
  }

  /** The base must keep 2200 units from the station and radius + 1700 from every zone centre. */
  predicate BaseSpotOk(c: Point, station: Point, zones: seq<Zone>)
  {
    !Within(c, station, SafezoneRadius + ProximityRadius + 500.0) &&
    forall i :: 0 <= i < |zones| ==> !Within(c, zones[i].center, zones[i].radius + ProximityRadius + 500.0)
  }

  const BaseFallback: Point := Point(3000.0, 3000.0)

  /**
   * `spawn_enemy_base`: the first of at most ten checked draws that keeps
   * clear of the station and the zones, or the fixed fallback (3000, 3000),
   * which is not checked, after ten rejections.
   */
  method SpawnEnemyBase(station: Point, zones: seq<Zone>, draws: seq<Point>) returns (base: EnemyBase)
    requires |draws| == 11
    ensures base.size == 200 && base.health == 1000
    ensures (forall k :: 0 <= k < 10 ==> !BaseSpotOk(draws[k], station, zones)) ==> base.pos == BaseFallback
    ensures (exists k :: 0 <= k < 10 && BaseSpotOk(draws[k], station, zones)) ==>
      exists k :: 0 <= k < 10 && BaseSpotOk(draws[k], station, zones) &&
        (forall j :: 0 <= j < k ==> !BaseSpotOk(draws[j], station, zones)) && base.pos == draws[k]
  {
    var c := draws[0];
    var attempts := 0;
    while attempts < 10 && !BaseSpotOk(c, station, zones)
      invariant 0 <= attempts <= 10
      invariant c == draws[attempts]
      invariant forall j :: 0 <= j < attempts ==> !BaseSpotOk(draws[j], station, zones)
    {
      attempts := attempts + 1;
      c := draws[attempts];
    }
    if attempts == 10 {
      c := BaseFallback;
    }
    base := NewEnemyBase(c);
  }
}
