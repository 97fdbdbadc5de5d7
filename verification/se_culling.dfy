// The per-tick population bookkeeping of `update_game_state` in
// space_exp.py: the enemy pass (proximity buff, move, cull, shoot), the
// distance culls of asteroids and material drops, the stealth reveal, the
// refill choice and the enemy spawn timer.  Enemy movement is trigonometric
// and enters as each enemy's position after its move.

module SpaceExpCulling {
  import opened Geometry
  import opened SpaceExpEntities
  import opened SpaceExpSpawn

  const WorldCullDistance: real := 1000.0
  const MaxAsteroids: int := 15
  const MaxEnemies: int := 5
  const ZoneMaxAsteroids: int := 20
  const EnemySpawnTimer: int := 2000

  /** What the culls measure against. */
  datatype Surroundings = Surroundings(player: Point, station: Point, zones: seq<Zone>, base: Option<EnemyBase>)

  /** An enemy at p is kept: within 1000 of the player, outside the station's safezone and every mining zone. */
  predicate Survives(p: Point, w: Surroundings)
  {
    WithinOrOn(p, w.player, WorldCullDistance) && !Within(p, w.station, SafezoneRadius) && !InAnyZone(p, w.zones)
  }

  // ---------------------------------------------------------------------
  // Generic removal pass
  // ---------------------------------------------------------------------

  /** The elements of xs that `keep` accepts, in their original order. */
  function Filter<T>(xs: seq<T>, keep: T -> bool): seq<T>
  {
    if xs == [] then [] else
      (if keep(xs[0]) then [xs[0]] else []) + Filter(xs[1..], keep)
  }

  /** A filter keeps exactly the accepted elements and never grows the group. */
  lemma {:induction false} FilterMembers<T>(xs: seq<T>, keep: T -> bool)
    ensures |Filter(xs, keep)| <= |xs|
    ensures forall x :: x in Filter(xs, keep) <==> x in xs && keep(x)
  {
    if xs != [] {
      FilterMembers(xs[1..], keep);
      assert xs == [xs[0]] + xs[1..];
    }
  }

  lemma {:induction false} FilterAppend<T>(xs: seq<T>, x: T, keep: T -> bool)
    ensures Filter(xs + [x], keep) == Filter(xs, keep) + (if keep(x) then [x] else [])
  {
    var last := if keep(x) then [x] else [];
    if xs == [] {
      assert [x][1..] == [];
    } else {
      var head := if keep(xs[0]) then [xs[0]] else [];
      assert (xs + [x])[0] == xs[0];
      assert (xs + [x])[1..] == xs[1..] + [x];
      FilterAppend(xs[1..], x, keep);
      assert Filter(xs + [x], keep) == head + (Filter(xs[1..], keep) + last);
      assert head + (Filter(xs[1..], keep) + last) == (head + Filter(xs[1..], keep)) + last;
    }
  }

  /**
   * The shape of every cull loop: walk a copy of the group and kill each
   * member that `keep` rejects.
   */
  method Cull<T>(xs: seq<T>, keep: T -> bool) returns (kept: seq<T>)
    ensures kept == Filter(xs, keep)
    ensures |kept| <= |xs|
    ensures forall x :: x in kept <==> x in xs && keep(x)
  {
    kept := [];
    var i := 0;
    while i < |xs|
      invariant 0 <= i <= |xs|
      invariant kept == Filter(xs[..i], keep)
    {
      FilterAppend(xs[..i], xs[i], keep);
      assert xs[..i + 1] == xs[..i] + [xs[i]];
      if keep(xs[i]) {
        kept := kept + [xs[i]];
      }
      i := i + 1;
    }
    assert xs[..i] == xs;
    FilterMembers(xs, keep);
  }

  /**
   * The asteroid cull: a general asteroid farther than 1000 from the player
   * is removed; asteroids that belong to a mining zone are never
   * distance-culled.
   */
  method CullAsteroids(asteroids: seq<Asteroid>, player: Point) returns (kept: seq<Asteroid>)
    ensures |kept| <= |asteroids|
    ensures forall a :: a in kept <==>
      a in asteroids && (a.zone.Some? || WithinOrOn(a.pos, player, WorldCullDistance))
    ensures forall a :: a in asteroids && a.zone.Some? ==> a in kept
  {
    kept := Cull(asteroids, (a: Asteroid) => a.zone.Some? || WithinOrOn(a.pos, player, WorldCullDistance));
  }

  /** The material-drop cull: drops farther than 1000 from the player are removed. */
  method CullMaterialDrops(drops: seq<MaterialDrop>, player: Point) returns (kept: seq<MaterialDrop>)
    ensures |kept| <= |drops|
    ensures forall d :: d in kept <==> d in drops && WithinOrOn(d.pos, player, WorldCullDistance)
  {
    kept := Cull(drops, (d: MaterialDrop) =>WithinOrOn(d.pos, player, WorldCullDistance));
  }

  /** A zone whose centre is more than 1000 + radius + 100 from the player is emptied. */
  predicate ZoneTooFar(z: Zone, player: Point)
  {
    !WithinOrOn(player, z.center, WorldCullDistance + z.radius + 100.0)
  }

  /**
   * The zone cull: every asteroid of a zone that is too far from the player
   * is removed (the zone itself stays and refills later); general asteroids
   * and asteroids of near zones are untouched.
   */
  method CullFarZones(asteroids: seq<Asteroid>, zones: seq<Zone>, player: Point) returns (kept: seq<Asteroid>)
    ensures |kept| <= |asteroids|
    ensures forall a :: a in kept <==>
      a in asteroids &&
      (a.zone.None? || a.zone.value >= |zones| || !ZoneTooFar(zones[a.zone.value], player))
  {
    kept := Cull(asteroids, (a: Asteroid) =>
      a.zone.None? || a.zone.value >= |zones| || !ZoneTooFar(zones[a.zone.value], player));
  }

  // ---------------------------------------------------------------------
  // The enemy pass
  // ---------------------------------------------------------------------

  /**
   * One enemy's buff and move: the multiplier comes from its distance to the
   * base before it moves, and `moved` is where its steering takes it.
   */
  function EnemyTick(e: Enemy, moved: Point, hasBase: bool, baseDist: real): (r: Enemy)
    requires WellFormedEnemy(e) && baseDist >= 0.0
    ensures WellFormedEnemy(r) && r.pos == moved
    ensures r.health == e.health && r.kind == e.kind && r.lastShot == e.lastShot
    ensures e.baseCooldown / 2.0 <= r.currentCooldown <= e.baseCooldown
  {
    Buffed(e, ProximityMultiplier(hasBase, baseDist)).(pos := moved)
  }

  /** The pass over the first k enemies: the enemies kept and the damage of each shot fired. */
  function EnemyPassSpec(enemies: seq<Enemy>, moved: seq<Point>, baseDist: seq<real>, w: Surroundings,
                         now: int, k: nat): (seq<Enemy>, seq<int>)
    requires k <= |enemies| == |moved| == |baseDist|
    requires forall i :: 0 <= i < |enemies| ==> WellFormedEnemy(enemies[i]) && baseDist[i] >= 0.0
    decreases k
  {
    if k == 0 then ([], []) else
      var prev := EnemyPassSpec(enemies, moved, baseDist, w, now, k - 1);
      var e := EnemyTick(enemies[k - 1], moved[k - 1], w.base.Some?, baseDist[k - 1]);
      if !Survives(e.pos, w) then prev else
        var fired := EnemyShoot(e, now);
        (prev.0 + [fired.0], prev.1 + (if fired.1.Some? then [fired.1.value] else []))
  }

  /**
   * What the pass promises: every enemy it keeps is within range of the
   * player and outside all safe areas, no enemy fires more than once, and
   * each kept enemy is the moved, buffed version of an input enemy.
   */
  lemma {:induction false} EnemyPassSound(enemies: seq<Enemy>, moved: seq<Point>, baseDist: seq<real>,
                                          w: Surroundings, now: int, k: nat)
    requires k <= |enemies| == |moved| == |baseDist|
    requires forall i :: 0 <= i < |enemies| ==> WellFormedEnemy(enemies[i]) && baseDist[i] >= 0.0
    ensures var r := EnemyPassSpec(enemies, moved, baseDist, w, now, k);
      |r.1| <= |r.0| <= k &&
      (forall e :: e in r.0 ==> Survives(e.pos, w) && WellFormedEnemy(e)) &&
      (forall e :: e in r.0 ==> exists i :: 0 <= i < k && e.pos == moved[i] && e.kind == enemies[i].kind)
    decreases k
  {
    if k > 0 {
      EnemyPassSound(enemies, moved, baseDist, w, now, k - 1);
    }
  }

  /** An enemy whose moved position survives is always kept, so the pass drops only culled enemies. */
  lemma {:induction false} EnemyPassKeepsSurvivors(enemies: seq<Enemy>, moved: seq<Point>, baseDist: seq<real>,
                                                   w: Surroundings, now: int, k: nat)
    requires k <= |enemies| == |moved| == |baseDist|
    requires forall i :: 0 <= i < |enemies| ==> WellFormedEnemy(enemies[i]) && baseDist[i] >= 0.0
    ensures |EnemyPassSpec(enemies, moved, baseDist, w, now, k).0| ==
      |set i | 0 <= i < k && Survives(moved[i], w)|
    decreases k
  {
    if k > 0 {
      EnemyPassKeepsSurvivors(enemies, moved, baseDist, w, now, k - 1);
      var before := set i | 0 <= i < k - 1 && Survives(moved[i], w);
      var after := set i | 0 <= i < k && Survives(moved[i], w);
      if Survives(moved[k - 1], w) {
        assert after == before + {k - 1};
      } else {
        assert after == before;
      }
    }
  }

  /**
   * The enemy loop of `update_game_state`: buff and move each enemy, kill
   * it when it is too far from the player or inside a safe area, and let
   * the survivors shoot.  `baseDist[i]` is enemy i's distance to the base.
   */
  method EnemyPass(enemies: seq<Enemy>, moved: seq<Point>, baseDist: seq<real>, w: Surroundings, now: int)
    returns (kept: seq<Enemy>, shots: seq<int>)
    requires |enemies| == |moved| == |baseDist|
    requires forall i :: 0 <= i < |enemies| ==> WellFormedEnemy(enemies[i]) && baseDist[i] >= 0.0
    requires w.base.Some? ==> forall i :: 0 <= i < |enemies| ==>
      baseDist[i] * baseDist[i] == Dist2(enemies[i].pos, w.base.value.pos)
    ensures (kept, shots) == EnemyPassSpec(enemies, moved, baseDist, w, now, |enemies|)
    ensures forall e :: e in kept ==> Survives(e.pos, w)
    ensures |shots| <= |kept| <= |enemies|
  {
    kept, shots := [], [];
    var i := 0;
    while i < |enemies|
      invariant 0 <= i <= |enemies|
      invariant (kept, shots) == EnemyPassSpec(enemies, moved, baseDist, w, now, i)
    {
      var e := EnemyTick(enemies[i], moved[i], w.base.Some?, baseDist[i]);
      if Survives(e.pos, w) {
        var fired := EnemyShoot(e, now);
        kept := kept + [fired.0];
        if fired.1.Some? {
          shots := shots + [fired.1.value];
        } else {
          assert shots + [] == shots;
        }
      }
      i := i + 1;
    }
    EnemyPassSound(enemies, moved, baseDist, w, now, |enemies|);
  }

  // ---------------------------------------------------------------------
  // Stealth reveal, refill and the enemy spawn timer
  // ---------------------------------------------------------------------

  /**
   * The stealth pass: with an antenna that reveals stealth every stealth
   * asteroid is revealed, without one every stealth asteroid is hidden
   * again; other asteroids are untouched.
   */
  method RevealPass(asteroids: seq<Asteroid>, revealsStealth: bool) returns (r: seq<Asteroid>)
    ensures |r| == |asteroids|
    ensures forall i :: 0 <= i < |r| ==> r[i] == asteroids[i].(revealed := r[i].revealed)
    ensures forall i :: 0 <= i < |r| ==> (Shown(r[i]) <==> !asteroids[i].stealth || revealsStealth)
    ensures forall i :: 0 <= i < |r| && !asteroids[i].stealth ==> r[i] == asteroids[i]
  {
    r := [];
    var i := 0;
    while i < |asteroids|
      invariant 0 <= i <= |asteroids| && |r| == i
      invariant forall j :: 0 <= j < i ==> r[j] == asteroids[j].(revealed := r[j].revealed)
      invariant forall j :: 0 <= j < i ==> (Shown(r[j]) <==> !asteroids[j].stealth || revealsStealth)
      invariant forall j :: 0 <= j < i && !asteroids[j].stealth ==> r[j] == asteroids[j]
    {
      var a := asteroids[i];
      if revealsStealth && a.stealth && !a.revealed {
        a := a.(revealed := true);
      } else if !revealsStealth && a.stealth && a.revealed {
        a := a.(revealed := false);
      }
      r := r + [a];
      i := i + 1;
    }
  }

  /** How many asteroids belong to zone z. */
  function ZoneCount(asteroids: seq<Asteroid>, z: nat): (n: nat)
    ensures n <= |asteroids|
  {
    if asteroids == [] then 0
    else (if asteroids[0].zone == Some(z) then 1 else 0) + ZoneCount(asteroids[1..], z)
  }

  /** What the asteroid refill does next: spawn in a zone, spawn a general asteroid, or nothing. */
  datatype Refill = InZone(zone: nat) | General | Full

  /**
   * One step of the refill: the first zone below its 20 asteroids is
   * topped up first; only when every zone is full does a general asteroid
   * spawn, while the total is below 15 plus 20 per zone.
   */
  function NextRefill(asteroids: seq<Asteroid>, zoneCount: nat): (r: Refill)
    ensures r.InZone? ==>
      r.zone < zoneCount && ZoneCount(asteroids, r.zone) < ZoneMaxAsteroids &&
      forall z :: 0 <= z < r.zone ==> ZoneCount(asteroids, z) >= ZoneMaxAsteroids
    ensures !r.InZone? ==> forall z :: 0 <= z < zoneCount ==> ZoneCount(asteroids, z) >= ZoneMaxAsteroids
    ensures r.General? <==>
      (forall z :: 0 <= z < zoneCount ==> ZoneCount(asteroids, z) >= ZoneMaxAsteroids) &&
      |asteroids| < MaxAsteroids + ZoneMaxAsteroids * zoneCount
  {
    FirstShortZone(asteroids, 0, zoneCount)
  }

  function FirstShortZone(asteroids: seq<Asteroid>, from: nat, zoneCount: nat): (r: Refill)
    requires forall z :: 0 <= z < from ==> ZoneCount(asteroids, z) >= ZoneMaxAsteroids
    ensures r.InZone? ==>
      from <= r.zone < zoneCount && ZoneCount(asteroids, r.zone) < ZoneMaxAsteroids &&
      forall z :: 0 <= z < r.zone ==> ZoneCount(asteroids, z) >= ZoneMaxAsteroids
    ensures !r.InZone? ==> forall z :: 0 <= z < zoneCount ==> ZoneCount(asteroids, z) >= ZoneMaxAsteroids
    ensures r.General? <==>
      (forall z :: 0 <= z < zoneCount ==> ZoneCount(asteroids, z) >= ZoneMaxAsteroids) &&
      |asteroids| < MaxAsteroids + ZoneMaxAsteroids * zoneCount
    decreases zoneCount - from
  {
    if from >= zoneCount then
      (if |asteroids| < MaxAsteroids + ZoneMaxAsteroids * zoneCount then General else Full)
    else if ZoneCount(asteroids, from) < ZoneMaxAsteroids then InZone(from)
    else FirstShortZone(asteroids, from + 1, zoneCount)
  }

  /** The spawn timer: below five enemies and more than two seconds since the last spawn. */
  predicate EnemySpawnDue(count: int, now: int, lastSpawn: int)
  {
    count < MaxEnemies && now - lastSpawn > EnemySpawnTimer
  }

  /**
   * The enemy spawn step: when due, try to spawn one enemy and restart the
   * timer whether or not a spot was found.  The population never grows
   * past five this way.
   */
  method EnemySpawnTick(enemies: seq<Enemy>, lastSpawn: int, now: int, camera: Point, w: Surroundings,
                        draws: seq<(Side, int)>, roll: real)
    returns (result: seq<Enemy>, last: int)
    requires |draws| == 10
    ensures !EnemySpawnDue(|enemies|, now, lastSpawn) ==> result == enemies && last == lastSpawn
    ensures EnemySpawnDue(|enemies|, now, lastSpawn) ==>
      last == now && |enemies| <= |result| <= |enemies| + 1 && result[..|enemies|] == enemies
    ensures |enemies| <= MaxEnemies ==> |result| <= MaxEnemies
  {
    result, last := enemies, lastSpawn;
    if EnemySpawnDue(|enemies|, now, lastSpawn) {
      result := SpawnEnemy(enemies, camera, w.station, w.zones, w.base, draws, roll);
      last := now;
    }
  }
}
