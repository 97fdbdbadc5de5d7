// main.py: the scrolling version.  The ship flies over an unbounded map,
// the camera follows it with damping, asteroids split into smaller tiers
// and finally into resources, and the population of asteroids and enemies
// grows with the distance from the origin.

module MainGame {
  import opened Geometry
  import opened EarlyCommon
  import opened Lifetimes

  const MaxPlayerSpeed: real := 0.2
  const PlayerAcceleration: real := 0.005
  const PlayerDeceleration: real := 0.98
  const MaxAsteroidSpeed: real := 1.5
  const MaxEnemySpeed: real := 1.8
  const EnemyAccelerationFactor: real := 0.03
  const CameraDampening: real := 0.95
  /** Damage of a player missile; asteroids take 1.5 times it, enemies twice it. */
  const MissileDamage: real := 25.0
  const ShootDelay: real := 1.0
  const StartingHealth: int := 200
  const EnemyHealth: real := 75.0
  /** Resources are worth `(type + 1) * 20` and last 900 frames. */
  const ResourceUnit: int := 20
  const ResourceLifetime: int := 900

  const Launcher: string := "MissileLauncher"

  /** `WEAPON_COSTS`: the only entry is the free starting weapon. */
  const WeaponCosts: map<string, int> := map[Launcher := 0]

  // ---------------------------------------------------------------------
  // Asteroids and split_asteroid
  // ---------------------------------------------------------------------

  /** Starting health of an asteroid: twice its width times its tier plus one. */
  function AsteroidHealth(tier: int): (h: real)
    requires 0 <= tier <= SmallestTier
    ensures h == [80.0, 120.0, 150.0][tier]
  {
    ((AsteroidSizes[tier] * 2) * (tier + 1)) as real
  }

  function NewRock(pos: Point, tier: int, speed: Point): Rock
    requires 0 <= tier <= SmallestTier
  {
    Rock(pos, tier, speed, AsteroidHealth(tier))
  }

  /** How far a child of the given tier is pushed from its parent's position. */
  function Displacement(tier: int): real
    requires 0 <= tier <= SmallestTier
  {
    AsteroidSizes[tier] as real + 15.0
  }

  /**
   * The random part of one child: the direction `(cos a, sin a)` of its
   * displacement and the push added to its inherited speed, each axis drawn
   * from [-2.25, 2.25].
   */
  datatype Push = Push(dir: Point, kick: Point)

  /** A child's speed on one axis: 0.4 of the parent's plus the push, clamped. */
  function ChildSpeed(parent: real, kick: real): (r: real)
    ensures -MaxAsteroidSpeed <= r <= MaxAsteroidSpeed
    ensures -MaxAsteroidSpeed <= parent * 0.4 + kick <= MaxAsteroidSpeed ==> r == parent * 0.4 + kick
  {
    Clamp(parent * 0.4 + kick, -MaxAsteroidSpeed, MaxAsteroidSpeed)
  }

  function Child(a: Rock, p: Push): Rock
    requires 0 <= a.sizeIndex < SmallestTier
  {
    var tier := a.sizeIndex + 1;
    NewRock(Offset(a.pos, p.dir, Displacement(tier)), tier,
            Point(ChildSpeed(a.speed.x, p.kick.x), ChildSpeed(a.speed.y, p.kick.y)))
  }

  /**
   * `split_asteroid`.  A large or medium asteroid breaks into two asteroids
   * of the next tier, each pushed `width + 15` away along its own drawn
   * direction.  A small one breaks into as many resources as `kinds` holds
   * (the game draws 2..4), all at its position.
   */
  function SplitAsteroid(a: Rock, pushes: seq<Push>, kinds: seq<int>): (items: seq<Piece>)
    requires 0 <= a.sizeIndex <= SmallestTier
    requires |pushes| == 2 && 2 <= |kinds| <= 4
    ensures a.sizeIndex < SmallestTier ==> |items| == 2
    ensures a.sizeIndex < SmallestTier ==>
      forall i :: 0 <= i < 2 ==>
        items[i].Chunk? && items[i].rock.sizeIndex == a.sizeIndex + 1 &&
        items[i].rock.pos == Offset(a.pos, pushes[i].dir, AsteroidSizes[a.sizeIndex + 1] as real + 15.0) &&
        items[i].rock.speed == Point(ChildSpeed(a.speed.x, pushes[i].kick.x), ChildSpeed(a.speed.y, pushes[i].kick.y)) &&
        -MaxAsteroidSpeed <= items[i].rock.speed.x <= MaxAsteroidSpeed &&
        -MaxAsteroidSpeed <= items[i].rock.speed.y <= MaxAsteroidSpeed &&
        items[i].rock.health == AsteroidHealth(a.sizeIndex + 1)
    ensures a.sizeIndex == SmallestTier ==> 2 <= |items| <= 4 && |items| == |kinds|
    ensures a.sizeIndex == SmallestTier ==>
      forall i :: 0 <= i < |items| ==> items[i] == Pickup(a.pos, kinds[i])
  {
    if a.sizeIndex < SmallestTier then
      [Chunk(Child(a, pushes[0])), Chunk(Child(a, pushes[1]))]
    else
      seq(|kinds|, i requires 0 <= i < |kinds| => Pickup(a.pos, kinds[i]))
  }

  /** A dropped resource disappears on its 900th update. */
  lemma ResourceLasts900(n: nat)
    ensures FuseAfter(ResourceLifetime, n).alive <==> n < 900
  {
    ResourceExpires(ResourceLifetime, n);
  }

  /** With a unit direction, each child of a large asteroid lands 45 units from it, and of a medium one 40. */
  lemma SplitDisplacement(a: Rock, pushes: seq<Push>, kinds: seq<int>, i: int)
    requires 0 <= a.sizeIndex < SmallestTier
    requires |pushes| == 2 && 2 <= |kinds| <= 4 && 0 <= i < 2
    requires pushes[i].dir.x * pushes[i].dir.x + pushes[i].dir.y * pushes[i].dir.y == 1.0
    ensures Dist2(SplitAsteroid(a, pushes, kinds)[i].rock.pos, a.pos) == (if a.sizeIndex == 0 then 45.0 * 45.0 else 40.0 * 40.0)
  {
  }

  /** The cascade ends: every asteroid a split produces is of a strictly smaller tier, and the smallest produces none. */
  lemma SplitTerminates(a: Rock, pushes: seq<Push>, kinds: seq<int>)
    requires 0 <= a.sizeIndex <= SmallestTier
    requires |pushes| == 2 && 2 <= |kinds| <= 4
    ensures forall p :: p in SplitAsteroid(a, pushes, kinds) && p.Chunk? ==>
      a.sizeIndex < p.rock.sizeIndex <= SmallestTier
    ensures a.sizeIndex == SmallestTier ==> forall p :: p in SplitAsteroid(a, pushes, kinds) ==> p.Pickup?
  {
  }

  /**
   * Missiles do 37.5 to asteroids: a large asteroid survives two and
   * breaks on the third, a medium one on the fourth, a small one on the
   * fourth as well.
   */
  lemma MissilesToBreak(tier: int, k: nat)
    requires 0 <= tier <= SmallestTier
    ensures HitTimes(AsteroidHealth(tier), MissileDamage * 1.5, k) <= 0.0 <==>
      k >= (if tier == 0 then 3 else 4)
  {
    HitsToDestroy(AsteroidHealth(tier), MissileDamage * 1.5, k);
  }

  // ---------------------------------------------------------------------
  // Spaceship movement
  // ---------------------------------------------------------------------

  /**
   * One axis of `Spaceship.update`: add the acceleration, decay by 0.98
   * when no acceleration is held on this axis, clamp to [-0.2, 0.2].
   */
  function AxisStep(v: real, accel: real): (r: real)
    ensures -MaxPlayerSpeed <= r <= MaxPlayerSpeed
    ensures accel != 0.0 && -MaxPlayerSpeed <= v + accel <= MaxPlayerSpeed ==> r == v + accel
    ensures accel == 0.0 ==> Abs(r) <= Abs(v) && (v >= 0.0 ==> r >= 0.0) && (v <= 0.0 ==> r <= 0.0)
  {
    var sped := v + accel;
    var coasted := if accel == 0.0 then sped * PlayerDeceleration else sped;
    Clamp(coasted, -MaxPlayerSpeed, MaxPlayerSpeed)
  }

  /** The speed on one axis after `n` updates with the same acceleration held. */
  function AxisAfter(v: real, accel: real, n: nat): real
  {
    if n == 0 then v else AxisStep(AxisAfter(v, accel, n - 1), accel)
  }

  /** Holding a direction from rest, the speed grows by 0.005 a frame until it tops out at 0.2 on frame 40. */
  lemma {:induction false} AccelerateFromRest(n: nat)
    ensures AxisAfter(0.0, PlayerAcceleration, n) == MinReal(MaxPlayerSpeed, PlayerAcceleration * n as real)
  {
    if n > 0 {
      AccelerateFromRest(n - 1);
    }
  }

  /** Coasting within the limit, the speed decays geometrically: 0.98 to the n times the start. */
  lemma {:induction false} CoastDecays(v: real, n: nat)
    requires -MaxPlayerSpeed <= v <= MaxPlayerSpeed
    ensures AxisAfter(v, 0.0, n) == v * Pow(PlayerDeceleration, n)
  {
    if n > 0 {
      CoastDecays(v, n - 1);
      CoastFrame(v, n, AxisAfter(v, 0.0, n - 1));
    }
  }

  /** One coasting frame inside the limit multiplies the speed by exactly 0.98. */
  lemma CoastFrame(v: real, n: nat, w: real)
    requires n > 0 && -MaxPlayerSpeed <= v <= MaxPlayerSpeed && w == v * Pow(PlayerDeceleration, n - 1)
    ensures AxisStep(w, 0.0) == v * Pow(PlayerDeceleration, n)
  {
    var p := Pow(PlayerDeceleration, n - 1);
    PowBetween01(PlayerDeceleration, n - 1);
    ScaleWithin(v, p, MaxPlayerSpeed);
    ScaleWithin(w, PlayerDeceleration, MaxPlayerSpeed);
  }

  // ---------------------------------------------------------------------
  // Weapon
  // ---------------------------------------------------------------------

  /** A `Weapon`'s state: its type, when it may fire next and whether it is ready. */
  datatype Gun = Gun(kind: string, nextFire: real, ready: bool)

  /** `Weapon.update`: ready again once the clock reaches `next_fire`. */
  function GunUpdate(w: Gun, now: real): (r: Gun)
    ensures r.kind == w.kind && r.nextFire == w.nextFire
    ensures r.ready <==> w.ready || now >= w.nextFire
  {
    if now >= w.nextFire then w.(ready := true) else w
  }

  /** `Weapon.fire`: a missile only when ready, a missile launcher, and given a target. */
  predicate CanFire(w: Gun, hasTarget: bool)
  {
    w.ready && w.kind == Launcher && hasTarget
  }

  /** The weapon after a successful shot at time `now`. */
  function GunFired(w: Gun, now: real): (r: Gun)
    ensures !r.ready && r.kind == w.kind && r.nextFire == now + ShootDelay
  {
    Gun(w.kind, now + ShootDelay, false)
  }

  /** Updates at the given times, in order. */
  function GunUpdates(w: Gun, times: seq<real>): Gun
    decreases |times|
  {
    if times == [] then w else GunUpdates(GunUpdate(w, times[0]), times[1..])
  }

  /** After a shot, no update earlier than one second later makes the weapon ready. */
  lemma {:induction false} CooldownHolds(w: Gun, now: real, times: seq<real>)
    requires forall k :: 0 <= k < |times| ==> times[k] < now + ShootDelay
    ensures !GunUpdates(GunFired(w, now), times).ready
    ensures GunUpdates(GunFired(w, now), times).nextFire == now + ShootDelay
  {
    if times != [] {
      var w1 := GunUpdate(GunFired(w, now), times[0]);
      assert w1 == GunFired(w, now);
      CooldownHolds(w, now, times[1..]);
    }
  }

  /** The first update one second or more after a shot re-arms the weapon. */
  lemma Rearms(w: Gun, now: real, later: real)
    requires later >= now + ShootDelay
    ensures GunUpdate(GunFired(w, now), later).ready
    ensures CanFire(GunUpdate(GunFired(w, now), later), true) <==> w.kind == Launcher
  {
  }

  /** A projectile fired at a target, with its damage. */
  datatype Shot = Shot(origin: Point, damage: real)

  /** `Weapon`. */
  class Weapon {
    var kind: string
    var nextFire: real
    var ready: bool

    function View(): Gun
      reads this
    {
      Gun(kind, nextFire, ready)
    }

    constructor(now: real)
      ensures View() == Gun(Launcher, now, true)
    {
      kind := Launcher;
      nextFire := now;
      ready := true;
    }

    method Update(now: real)
      modifies this
      ensures View() == GunUpdate(old(View()), now)
    {
      if now >= nextFire {
        ready := true;
      }
    }

    method Fire(now: real, origin: Point, hasTarget: bool) returns (shot: Option<Shot>)
      modifies this
      ensures shot.Some? <==> CanFire(old(View()), hasTarget)
      ensures shot.Some? ==> shot.value == Shot(origin, MissileDamage) && View() == GunFired(old(View()), now)
      ensures shot.None? ==> View() == old(View())
    {
      shot := None;
      if ready {
        if kind == Launcher && hasTarget {
          nextFire := now + ShootDelay;
          ready := false;
          shot := Some(Shot(origin, MissileDamage));
        }
      }
    }
  }

  // ---------------------------------------------------------------------
  // Spaceship
  // ---------------------------------------------------------------------

  predicate Distinct(names: seq<string>)
  {
    forall i, j :: 0 <= i < j < |names| ==> names[i] != names[j]
  }

  /** `buy_weapon` succeeds for a known weapon the player can afford and does not own yet. */
  predicate CanBuy(score: int, owned: seq<string>, name: string)
  {
    name in WeaponCosts && score >= WeaponCosts[name] && name !in owned
  }

  /** With the cost table as shipped, a ship that starts with the launcher can never buy anything. */
  lemma NothingToBuy(score: int, owned: seq<string>, name: string)
    requires Launcher in owned
    ensures !CanBuy(score, owned, name)
  {
  }

  /**
   * `Spaceship`: position on the map, velocity, held acceleration, score
   * and owned weapons.  The screen position is fixed at the centre.
   */
  class Spaceship {
    var pos: Point
    var speed: Point
    var accel: Point
    var health: int
    var score: int
    var owned: seq<string>
    const weapon: Weapon

    /** Score is never negative, and no weapon is owned twice. */
    predicate Valid()
      reads this`score, this`owned
    {
      score >= 0 && Distinct(owned)
    }

    constructor(pos: Point, now: real)
      ensures Valid()
      ensures this.pos == pos && speed == Point(0.0, 0.0) && accel == Point(0.0, 0.0)
      ensures health == StartingHealth && score == 0 && owned == [Launcher]
      ensures fresh(weapon) && weapon.View() == Gun(Launcher, now, true)
    {
      this.pos := pos;
      speed := Point(0.0, 0.0);
      accel := Point(0.0, 0.0);
      health := StartingHealth;
      score := 0;
      owned := [Launcher];
      weapon := new Weapon(now);
    }

    /** `update`: per-axis velocity step, then the map position moves by it; the weapon cools down. */
    method Update(now: real)
      modifies this, weapon
      ensures speed == Point(AxisStep(old(speed.x), accel.x), AxisStep(old(speed.y), accel.y))
      ensures pos == Point(old(pos.x) + speed.x, old(pos.y) + speed.y)
      ensures accel == old(accel) && health == old(health) && score == old(score) && owned == old(owned)
      ensures weapon.View() == GunUpdate(old(weapon.View()), now)
    {
      var sx := speed.x + accel.x;
      var sy := speed.y + accel.y;
      if accel.x == 0.0 {
        sx := sx * PlayerDeceleration;
      }
      if accel.y == 0.0 {
        sy := sy * PlayerDeceleration;
      }
      sx := MaxReal(-MaxPlayerSpeed, MinReal(sx, MaxPlayerSpeed));
      sy := MaxReal(-MaxPlayerSpeed, MinReal(sy, MaxPlayerSpeed));
      speed := Point(sx, sy);
      pos := Point(pos.x + sx, pos.y + sy);
      weapon.Update(now);
    }

    /** `set_acceleration`: the directions are scaled by 0.005. */
    method SetAcceleration(dirX: real, dirY: real)
      modifies this`accel
      ensures accel == Point(dirX * PlayerAcceleration, dirY * PlayerAcceleration)
    {
      accel := Point(dirX * PlayerAcceleration, dirY * PlayerAcceleration);
    }

    /** `fire_primary_weapon`: fires the launcher at a target when it is ready. */
    method FirePrimary(now: real, origin: Point, hasTarget: bool) returns (shot: Option<Shot>)
      modifies weapon
      ensures shot.Some? <==> CanFire(old(weapon.View()), hasTarget)
      ensures shot.Some? ==> shot.value == Shot(origin, MissileDamage) && weapon.View() == GunFired(old(weapon.View()), now)
      ensures shot.None? ==> weapon.View() == old(weapon.View())
    {
      shot := None;
      if weapon.ready && hasTarget {
        if weapon.kind == Launcher {
          shot := weapon.Fire(now, origin, hasTarget);
        }
      }
    }

    /** `buy_weapon`: deducts exactly the cost and appends the weapon, or changes nothing. */
    method BuyWeapon(name: string) returns (ok: bool)
      requires Valid()
      modifies this`score, this`owned
      ensures Valid()
      ensures ok <==> CanBuy(old(score), old(owned), name)
      ensures ok ==> score == old(score) - WeaponCosts[name] && owned == old(owned) + [name]
      ensures !ok ==> score == old(score) && owned == old(owned)
    {
      if name in WeaponCosts {
        var cost := WeaponCosts[name];
        if score >= cost && name !in owned {
          score := score - cost;
          owned := owned + [name];
          return true;
        }
      }
      return false;
    }

    /** `switch_weapon`: only to a weapon the ship owns. */
    method SwitchWeapon(name: string) returns (ok: bool)
      modifies weapon`kind
      ensures ok <==> name in owned
      ensures weapon.kind == (if ok then name else old(weapon.kind))
    {
      if name in owned {
        weapon.kind := name;
        return true;
      }
      return false;
    }
  }

  // ---------------------------------------------------------------------
  // Enemies
  // ---------------------------------------------------------------------

  /** An enemy ship on the map. */
  datatype Raider = Raider(pos: Point, speed: Point, health: real)

  /**
   * `Enemy.update`: `aim` is the velocity of length 1.8 toward the player,
   * None when there is no player or it sits exactly on the enemy.  The
   * velocity blends 3% toward it, is clamped to [-1.8, 1.8] per axis, and
   * the enemy moves by it.
   */
  function RaiderStep(e: Raider, aim: Option<Point>): (r: Raider)
    ensures -MaxEnemySpeed <= r.speed.x <= MaxEnemySpeed && -MaxEnemySpeed <= r.speed.y <= MaxEnemySpeed
    ensures r.pos == Point(e.pos.x + r.speed.x, e.pos.y + r.speed.y) && r.health == e.health
  {
    var ax := if aim.Some? then Some(aim.value.x) else None;
    var ay := if aim.Some? then Some(aim.value.y) else None;
    var s := Point(Steer(e.speed.x, ax, EnemyAccelerationFactor, MaxEnemySpeed),
                   Steer(e.speed.y, ay, EnemyAccelerationFactor, MaxEnemySpeed));
    Raider(Point(e.pos.x + s.x, e.pos.y + s.y), s, e.health)
  }

  /** Chasing the player within the speed limit, an enemy's velocity gap to its aim shrinks to 97% per frame. */
  lemma RaiderHomesIn(e: Raider, aim: Point)
    requires -MaxEnemySpeed <= e.speed.x <= MaxEnemySpeed && -MaxEnemySpeed <= e.speed.y <= MaxEnemySpeed
    requires -MaxEnemySpeed <= aim.x <= MaxEnemySpeed && -MaxEnemySpeed <= aim.y <= MaxEnemySpeed
    ensures RaiderStep(e, Some(aim)).speed.x - aim.x == 0.97 * (e.speed.x - aim.x)
    ensures RaiderStep(e, Some(aim)).speed.y - aim.y == 0.97 * (e.speed.y - aim.y)
  {
    SteerClosesGap(e.speed.x, aim.x, EnemyAccelerationFactor, MaxEnemySpeed);
    SteerClosesGap(e.speed.y, aim.y, EnemyAccelerationFactor, MaxEnemySpeed);
  }

  /** An enemy takes a missile as 50 damage: two hits destroy it. */
  lemma MissilesToDownRaider(k: nat)
    ensures HitTimes(EnemyHealth, MissileDamage * 2.0, k) <= 0.0 <==> k >= 2
  {
    HitsToDestroy(EnemyHealth, MissileDamage * 2.0, k);
  }

  // ---------------------------------------------------------------------
  // Camera and population refill
  // ---------------------------------------------------------------------

  /** One frame of the damped camera: the offset moves 5% of the way to the player. */
  function CameraStep(offset: real, target: real): (r: real)
    ensures r - target == CameraDampening * (offset - target)
    ensures offset <= target ==> offset <= r <= target
    ensures target <= offset ==> target <= r <= offset
  {
    offset + (target - offset) * (1.0 - CameraDampening)
  }

  /** The offset after `n` frames following a player that stays put. */
  function CameraAfter(offset: real, target: real, n: nat): real
  {
    if n == 0 then offset else CameraStep(CameraAfter(offset, target, n - 1), target)
  }

  /** After n frames the remaining gap is 0.95 to the n of the first one. */
  lemma {:induction false} CameraConverges(offset: real, target: real, n: nat)
    ensures CameraAfter(offset, target, n) - target == Pow(CameraDampening, n) * (offset - target)
  {
    if n > 0 {
      CameraConverges(offset, target, n - 1);
    }
  }

  /** `int(10 * (1 + d / 1000))`: ten asteroids, one more per 100 units from the origin. */
  function MinAsteroids(distance: real): (r: int)
    requires distance >= 0.0
    ensures r >= 10
    ensures (r - 10) as real * 100.0 <= distance < (r - 9) as real * 100.0
  {
    (10.0 * (1.0 + distance / 1000.0)).Floor
  }

  /** `int(2 * (1 + d / 1000))`: two enemies, one more per 500 units from the origin. */
  function MinEnemies(distance: real): (r: int)
    requires distance >= 0.0
    ensures r >= 2
    ensures (r - 2) as real * 500.0 <= distance < (r - 1) as real * 500.0
  {
    (2.0 * (1.0 + distance / 1000.0)).Floor
  }

  /** Flying farther out never lowers either minimum. */
  lemma RefillGrowsWithDistance(near: real, far: real)
    requires 0.0 <= near <= far
    ensures MinAsteroids(near) <= MinAsteroids(far)
    ensures MinEnemies(near) <= MinEnemies(far)
  {
  }

  /** How many to spawn: the shortfall below the minimum, or none. */
  function Deficit(count: int, minimum: int): (r: nat)
    ensures count < minimum ==> count + r == minimum
    ensures count >= minimum ==> r == 0
  {
    if count < minimum then minimum - count else 0
  }

  /** A refill asteroid as drawn: position 600..1000 from the player, tier and speed. */
  datatype RockDraw = RockDraw(pos: Point, tier: int, speed: Point)

  predicate DrawsOk(draws: seq<RockDraw>)
  {
    forall k :: 0 <= k < |draws| ==> 0 <= draws[k].tier <= SmallestTier
  }

  function Spawned(draws: seq<RockDraw>): (r: seq<Rock>)
    requires DrawsOk(draws)
    ensures |r| == |draws|
    ensures forall k :: 0 <= k < |r| ==> r[k].health == AsteroidHealth(draws[k].tier) && r[k].pos == draws[k].pos
  {
    if draws == [] then []
    else Spawned(draws[..|draws| - 1]) + [NewRock(draws[|draws| - 1].pos, draws[|draws| - 1].tier, draws[|draws| - 1].speed)]
  }

  /** The map-space world of the main loop: camera offset and the two populations that get refilled. */
  class World {
    var camera: Point
    var asteroids: seq<Rock>
    var enemies: seq<Raider>

    constructor()
      ensures camera == Point(0.0, 0.0) && asteroids == [] && enemies == []
    {
      camera := Point(0.0, 0.0);
      asteroids := [];
      enemies := [];
    }

    /** The damped camera follows the player's map position. */
    method FollowCamera(player: Point)
      modifies this`camera
      ensures camera == Point(CameraStep(old(camera.x), player.x), CameraStep(old(camera.y), player.y))
    {
      var x := camera.x + (player.x - camera.x) * (1.0 - CameraDampening);
      var y := camera.y + (player.y - camera.y) * (1.0 - CameraDampening);
      camera := Point(x, y);
    }

    /**
     * The asteroid refill: below the distance-based minimum, exactly the
     * shortfall is spawned from the first draws; the existing asteroids
     * stay in place.
     */
    method RefillAsteroids(distance: real, draws: seq<RockDraw>)
      requires distance >= 0.0 && DrawsOk(draws)
      requires |draws| >= Deficit(|asteroids|, MinAsteroids(distance))
      modifies this`asteroids
      ensures asteroids == old(asteroids) + Spawned(draws[..Deficit(|old(asteroids)|, MinAsteroids(distance))])
      ensures |asteroids| == MaxInt(|old(asteroids)|, MinAsteroids(distance))
    {
      var minimum := MinAsteroids(distance);
      if |asteroids| < minimum {
        var n := minimum - |asteroids|;
        ghost var start := asteroids;
        for k := 0 to n
          invariant asteroids == start + Spawned(draws[..k])
        {
          assert draws[..k + 1][..k] == draws[..k];
          asteroids := asteroids + [NewRock(draws[k].pos, draws[k].tier, draws[k].speed)];
        }
      }
    }

    /**
     * The enemy refill: below the minimum, exactly the shortfall of new
     * enemies (75 health) appears at the drawn positions with the drawn
     * velocities.
     */
    method RefillEnemies(distance: real, draws: seq<(Point, Point)>)
      requires distance >= 0.0
      requires |draws| >= Deficit(|enemies|, MinEnemies(distance))
      modifies this`enemies
      ensures |enemies| == MaxInt(|old(enemies)|, MinEnemies(distance))
      ensures enemies[..|old(enemies)|] == old(enemies)
      ensures forall k :: |old(enemies)| <= k < |enemies| ==>
        enemies[k] == Raider(draws[k - |old(enemies)|].0, draws[k - |old(enemies)|].1, EnemyHealth)
    {
      var minimum := MinEnemies(distance);
      if |enemies| < minimum {
        var n := minimum - |enemies|;
        ghost var start := enemies;
        for k := 0 to n
          invariant |enemies| == |start| + k && enemies[..|start|] == start
          invariant forall j :: |start| <= j < |enemies| ==> enemies[j] == Raider(draws[j - |start|].0, draws[j - |start|].1, EnemyHealth)
        {
          enemies := enemies + [Raider(draws[k].0, draws[k].1, EnemyHealth)];
        }
      }
    }
  }
}
