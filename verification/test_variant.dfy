// test.py: the single-screen mining version with a pause menu.  The ship
// accelerates and coasts inside the screen, missiles do 50 damage, the
// laser is a mining tool, and the minimum numbers of asteroids and
// enemies grow with the score.

module TestVariant {
  import opened Geometry
  import opened EarlyCommon
  import opened Lifetimes

  const ScreenWidth: real := 800.0
  const ScreenHeight: real := 600.0
  const MaxPlayerSpeed: real := 4.0
  const PlayerAcceleration: real := 0.3
  const PlayerDeceleration: real := 0.96
  const MaxAsteroidSpeed: real := 1.0
  const MaxEnemySpeed: real := 1.2
  const EnemyAccelerationFactor: real := 0.03
  const StartingHealth: int := 200
  const MissileDamage: real := 50.0
  const ShootDelay: real := 0.5
  /** New asteroids and enemies appear more than 200 from the player. */
  const SpawnClearance: real := 200.0

  // ---------------------------------------------------------------------
  // Asteroids and split_asteroid
  // ---------------------------------------------------------------------

  /** Health grows with the tier index: `(width * 2) * (index + 1)`. */
  function AsteroidHealth(tier: int): (h: real)
    requires 0 <= tier <= SmallestTier
    ensures h == [80.0, 120.0, 150.0][tier]
  {
    ((AsteroidSizes[tier] * 2) * (tier + 1)) as real
  }

  function NewRock(pos: Point, tier: int, speed: Point): Rock
    requires 0 <= tier <= SmallestTier
  {
    Rock(pos, tier, speed, AsteroidHealth(tier))
  }

  /** The random part of one child: its displacement direction `(cos a, sin a)` and a push per axis from [-1.5, 1.5]. */
  datatype Push = Push(dir: Point, kick: Point)

  /** A child's speed on one axis: 40% of the parent's plus the push, clamped to [-1, 1]. */
  function ChildSpeed(parent: real, kick: real): (r: real)
    ensures -MaxAsteroidSpeed <= r <= MaxAsteroidSpeed
    ensures -MaxAsteroidSpeed <= parent * 0.4 + kick <= MaxAsteroidSpeed ==> r == parent * 0.4 + kick
  {
    Clamp(parent * 0.4 + kick, -MaxAsteroidSpeed, MaxAsteroidSpeed)
  }

  function Child(a: Rock, p: Push): Rock
    requires 0 <= a.sizeIndex < SmallestTier
  {
    var tier := a.sizeIndex + 1;
    NewRock(Offset(a.pos, p.dir, AsteroidSizes[tier] as real + 10.0), tier,
            Point(ChildSpeed(a.speed.x, p.kick.x), ChildSpeed(a.speed.y, p.kick.y)))
  }

  /**
   * `split_asteroid`: two asteroids of the next tier pushed `width + 10`
   * away with clamped speeds, or, from the smallest tier, as many
   * resources as `kinds` holds (the game draws 2..4) at its centre.
   */
  function SplitAsteroid(a: Rock, pushes: seq<Push>, kinds: seq<int>): (items: seq<Piece>)
    requires 0 <= a.sizeIndex <= SmallestTier
    requires |pushes| == 2 && 2 <= |kinds| <= 4
    ensures a.sizeIndex < SmallestTier ==> |items| == 2
    ensures a.sizeIndex < SmallestTier ==>
      forall i :: 0 <= i < 2 ==>
        items[i].Chunk? && items[i].rock.sizeIndex == a.sizeIndex + 1 &&
        items[i].rock.pos == Offset(a.pos, pushes[i].dir, AsteroidSizes[a.sizeIndex + 1] as real + 10.0) &&
        items[i].rock.health == AsteroidHealth(a.sizeIndex + 1) &&
        items[i].rock.speed == Point(ChildSpeed(a.speed.x, pushes[i].kick.x), ChildSpeed(a.speed.y, pushes[i].kick.y)) &&
        -MaxAsteroidSpeed <= items[i].rock.speed.x <= MaxAsteroidSpeed &&
        -MaxAsteroidSpeed <= items[i].rock.speed.y <= MaxAsteroidSpeed
    ensures a.sizeIndex == SmallestTier ==> 2 <= |items| <= 4 && |items| == |kinds|
    ensures a.sizeIndex == SmallestTier ==>
      forall i :: 0 <= i < |items| ==> items[i] == Pickup(a.pos, kinds[i])
  {
    if a.sizeIndex < SmallestTier then
      [Chunk(Child(a, pushes[0])), Chunk(Child(a, pushes[1]))]
    else
      seq(|kinds|, i requires 0 <= i < |kinds| => Pickup(a.pos, kinds[i]))
  }

  /** With a unit direction, each child of a large asteroid lands 40 units from it, and of a medium one 35. */
  lemma SplitDisplacement(a: Rock, pushes: seq<Push>, kinds: seq<int>, i: int)
    requires 0 <= a.sizeIndex < SmallestTier
    requires |pushes| == 2 && 2 <= |kinds| <= 4 && 0 <= i < 2
    requires pushes[i].dir.x * pushes[i].dir.x + pushes[i].dir.y * pushes[i].dir.y == 1.0
    ensures Dist2(SplitAsteroid(a, pushes, kinds)[i].rock.pos, a.pos) == (if a.sizeIndex == 0 then 40.0 * 40.0 else 35.0 * 35.0)
  {
  }

  /** A missile hits asteroids half as hard again (75): every tier breaks on the second missile. */
  lemma MissilesToBreak(tier: int, k: nat)
    requires 0 <= tier <= SmallestTier
    ensures HitTimes(AsteroidHealth(tier), MissileDamage * 1.5, k) <= 0.0 <==> k >= 2
  {
    HitsToDestroy(AsteroidHealth(tier), MissileDamage * 1.5, k);
  }

  // ---------------------------------------------------------------------
  // The player's ship
  // ---------------------------------------------------------------------

  /** The speed on one axis after one update: accelerate, coast when idle, clamp to [-4, 4]. */
  function AxisStep(v: real, accel: real): (r: real)
    ensures -MaxPlayerSpeed <= r <= MaxPlayerSpeed
    ensures accel != 0.0 && -MaxPlayerSpeed <= v + accel <= MaxPlayerSpeed ==> r == v + accel
    ensures accel == 0.0 ==> Abs(r) <= Abs(v) && (v >= 0.0 ==> r >= 0.0) && (v <= 0.0 ==> r <= 0.0)
  {
    var sped := v + accel;
    var coasted := if accel == 0.0 then sped * PlayerDeceleration else sped;
    Clamp(coasted, -MaxPlayerSpeed, MaxPlayerSpeed)
  }

  function AxisAfter(v: real, accel: real, n: nat): real
  {
    if n == 0 then v else AxisStep(AxisAfter(v, accel, n - 1), accel)
  }

  /** Holding a direction from rest, the speed grows by 0.3 a frame and tops out at 4 on frame 14. */
  lemma {:induction false} AccelerateFromRest(n: nat)
    ensures AxisAfter(0.0, PlayerAcceleration, n) == MinReal(MaxPlayerSpeed, PlayerAcceleration * n as real)
  {
    if n > 0 {
      AccelerateFromRest(n - 1);
    }
  }

  /** A missile as `Weapon.fire` creates it. */
  datatype Shot = Shot(origin: Point, damage: real)

  /** `Weapon`: the missile launcher with a half-second cooldown. */
  class Weapon {
    var kind: string
    var nextFire: real
    var ready: bool

    constructor(now: real)
      ensures kind == "MissileLauncher" && nextFire == now && ready
    {
      kind := "MissileLauncher";
      nextFire := now;
      ready := true;
    }

    /** `update`: ready again once the clock reaches `next_fire`. */
    method Update(now: real)
      modifies this`ready
      ensures ready <==> old(ready) || now >= nextFire
    {
      if now >= nextFire {
        ready := true;
      }
    }

    /** `fire`: a ready missile launcher with a target fires a 50-damage missile and restarts the cooldown. */
    method Fire(now: real, origin: Point, hasTarget: bool) returns (shot: Option<Shot>)
      modifies this`nextFire, this`ready
      ensures shot.Some? <==> old(ready) && kind == "MissileLauncher" && hasTarget
      ensures shot.Some? ==> shot.value == Shot(origin, MissileDamage) && !ready && nextFire == now + ShootDelay
      ensures shot.None? ==> ready == old(ready) && nextFire == old(nextFire)
    {
      shot := None;
      if ready && kind == "MissileLauncher" && hasTarget {
        nextFire := now + ShootDelay;
        ready := false;
        shot := Some(Shot(origin, MissileDamage));
      }
    }
  }

  /** `Spaceship`: rectangle corner, velocity, acceleration, health, score, weapon and laser flag. */
  class Spaceship {
    var pos: Point
    var speed: Point
    var accel: Point
    var health: int
    var score: int
    var shootingLaser: bool
    const weapon: Weapon

    constructor(corner: Point, now: real)
      ensures pos == corner && speed == Point(0.0, 0.0) && accel == Point(0.0, 0.0)
      ensures health == StartingHealth && score == 0 && !shootingLaser
      ensures fresh(weapon) && weapon.kind == "MissileLauncher" && weapon.ready
    {
      pos := corner;
      speed := Point(0.0, 0.0);
      accel := Point(0.0, 0.0);
      health := StartingHealth;
      score := 0;
      shootingLaser := false;
      weapon := new Weapon(now);
    }

    /**
     * `update`: each axis of the velocity takes `AxisStep`, the ship moves
     * by it and the rectangle, `width` by `height` as last drawn, is kept
     * on screen; then the rectangle is re-made around the same centre for
     * the rotated image, `newWidth` by `newHeight`, so it may stick out of
     * the screen by half its growth; the weapon cools down.
     */
    method Update(now: real, width: real, height: real, newWidth: real, newHeight: real)
      modifies this`speed, this`pos, weapon`ready
      ensures speed == Point(AxisStep(old(speed.x), accel.x), AxisStep(old(speed.y), accel.y))
      ensures var c := LimitPosition(Point(old(pos.x) + speed.x, old(pos.y) + speed.y), ScreenWidth - width, ScreenHeight - height);
        pos == Point(c.x + (width - newWidth) / 2.0, c.y + (height - newHeight) / 2.0)
      ensures width <= ScreenWidth ==> width / 2.0 <= pos.x + newWidth / 2.0 <= ScreenWidth - width / 2.0
      ensures height <= ScreenHeight ==> height / 2.0 <= pos.y + newHeight / 2.0 <= ScreenHeight - height / 2.0
      ensures weapon.ready <==> old(weapon.ready) || now >= weapon.nextFire
    {
      var sx := speed.x + accel.x;
      var sy := speed.y + accel.y;
      if accel.x == 0.0 {
        sx := sx * PlayerDeceleration;
      }
      if accel.y == 0.0 {
        sy := sy * PlayerDeceleration;
      }
      sx := MaxReal(-MaxPlayerSpeed, MinReal(sx, MaxPlayerSpeed));
      sy := MaxReal(-MaxPlayerSpeed, MinReal(sy, MaxPlayerSpeed));
      speed := Point(sx, sy);
      var x := pos.x + sx;
      var y := pos.y + sy;
      x := MaxReal(0.0, MinReal(x, ScreenWidth - width));
      y := MaxReal(0.0, MinReal(y, ScreenHeight - height));
      pos := Point(x + width / 2.0 - newWidth / 2.0, y + height / 2.0 - newHeight / 2.0);
      weapon.Update(now);
    }

    /** `set_acceleration`: the direction per axis scaled by 0.3. */
    method SetAcceleration(dirX: real, dirY: real)
      modifies this`accel
      ensures accel == Point(dirX * PlayerAcceleration, dirY * PlayerAcceleration)
    {
      accel := Point(dirX * PlayerAcceleration, dirY * PlayerAcceleration);
    }

    /** `fire_primary_weapon`: only a ready missile launcher with a target fires. */
    method FirePrimary(now: real, origin: Point, hasTarget: bool) returns (shot: Option<Shot>)
      modifies weapon`nextFire, weapon`ready
      ensures shot.Some? <==> old(weapon.ready) && weapon.kind == "MissileLauncher" && hasTarget
      ensures shot.Some? ==> shot.value == Shot(origin, MissileDamage) && !weapon.ready && weapon.nextFire == now + ShootDelay
      ensures shot.None? ==> weapon.ready == old(weapon.ready) && weapon.nextFire == old(weapon.nextFire)
    {
      shot := None;
      if weapon.ready && weapon.kind == "MissileLauncher" && hasTarget {
        shot := weapon.Fire(now, origin, hasTarget);
      }
    }

    /** Space on the game-over screen: a fresh ship at `corner` with a stopped laser. */
    method Restart(corner: Point)
      modifies this`health, this`score, this`pos, this`speed, this`accel, this`shootingLaser
      ensures health == StartingHealth && score == 0 && pos == corner
      ensures speed == Point(0.0, 0.0) && accel == Point(0.0, 0.0) && !shootingLaser
    {
      health := StartingHealth;
      score := 0;
      pos := corner;
      speed := Point(0.0, 0.0);
      accel := Point(0.0, 0.0);
      shootingLaser := false;
    }
  }

  // ---------------------------------------------------------------------
  // Enemies
  // ---------------------------------------------------------------------

  /** An enemy: centre, velocity and health. */
  datatype Drone = Drone(pos: Point, speed: Point, health: real)

  /**
   * `Enemy.update`: `aim` is the velocity of length 1.2 toward the player
   * (None without one or at distance 0).  The velocity blends 3% toward
   * it and is clamped to [-1.2, 1.2] per axis; the enemy moves, and an
   * axis on which its rectangle (half size `half`) sticks out of the
   * screen has its velocity reversed, each axis on its own.
   */
  function DroneStep(e: Drone, aim: Option<Point>, half: Point): (r: Drone)
    ensures -MaxEnemySpeed <= r.speed.x <= MaxEnemySpeed && -MaxEnemySpeed <= r.speed.y <= MaxEnemySpeed
    ensures var s := Point(Steer(e.speed.x, if aim.Some? then Some(aim.value.x) else None, EnemyAccelerationFactor, MaxEnemySpeed),
                           Steer(e.speed.y, if aim.Some? then Some(aim.value.y) else None, EnemyAccelerationFactor, MaxEnemySpeed));
      r.pos == Point(e.pos.x + s.x, e.pos.y + s.y) &&
      (0.0 <= r.pos.x - half.x && r.pos.x + half.x <= ScreenWidth ==> r.speed.x == s.x) &&
      (r.pos.x - half.x < 0.0 || r.pos.x + half.x > ScreenWidth ==> r.speed.x == -s.x) &&
      (0.0 <= r.pos.y - half.y && r.pos.y + half.y <= ScreenHeight ==> r.speed.y == s.y) &&
      (r.pos.y - half.y < 0.0 || r.pos.y + half.y > ScreenHeight ==> r.speed.y == -s.y)
    ensures r.health == e.health
  {
    var ax := if aim.Some? then Some(aim.value.x) else None;
    var ay := if aim.Some? then Some(aim.value.y) else None;
    var sx := Steer(e.speed.x, ax, EnemyAccelerationFactor, MaxEnemySpeed);
    var sy := Steer(e.speed.y, ay, EnemyAccelerationFactor, MaxEnemySpeed);
    var p := Point(e.pos.x + sx, e.pos.y + sy);
    var vx := if p.x - half.x < 0.0 || p.x + half.x > ScreenWidth then -sx else sx;
    var vy := if p.y - half.y < 0.0 || p.y + half.y > ScreenHeight then -sy else sy;
    Drone(p, Point(vx, vy), e.health)
  }

  /** An enemy that crosses a side wall this frame leaves it heading back toward the screen. */
  lemma DroneTurnsBack(e: Drone, aim: Option<Point>, half: Point)
    requires 0.0 <= e.pos.x - half.x && e.pos.x + half.x <= ScreenWidth
    ensures var r := DroneStep(e, aim, half);
      (r.pos.x - half.x < 0.0 ==> r.speed.x > 0.0) && (r.pos.x + half.x > ScreenWidth ==> r.speed.x < 0.0)
  {
  }

  /** Away from the walls and within the limit, an enemy's velocity gap to its aim shrinks to 97% per frame. */
  lemma DroneHomesIn(e: Drone, aim: Point, half: Point)
    requires -MaxEnemySpeed <= e.speed.x <= MaxEnemySpeed && -MaxEnemySpeed <= e.speed.y <= MaxEnemySpeed
    requires -MaxEnemySpeed <= aim.x <= MaxEnemySpeed && -MaxEnemySpeed <= aim.y <= MaxEnemySpeed
    requires var r := DroneStep(e, Some(aim), half);
      0.0 <= r.pos.x - half.x && r.pos.x + half.x <= ScreenWidth &&
      0.0 <= r.pos.y - half.y && r.pos.y + half.y <= ScreenHeight
    ensures DroneStep(e, Some(aim), half).speed.x - aim.x == 0.97 * (e.speed.x - aim.x)
    ensures DroneStep(e, Some(aim), half).speed.y - aim.y == 0.97 * (e.speed.y - aim.y)
  {
    SteerClosesGap(e.speed.x, aim.x, EnemyAccelerationFactor, MaxEnemySpeed);
    SteerClosesGap(e.speed.y, aim.y, EnemyAccelerationFactor, MaxEnemySpeed);
  }

  // ---------------------------------------------------------------------
  // Game states and the pause menu
  // ---------------------------------------------------------------------

  datatype GameState = Playing | Paused | GameOver

  /** The P key: playing and paused swap; the game-over screen ignores it. */
  function TogglePause(s: GameState): (r: GameState)
    ensures s == Playing <==> r == Paused
    ensures s == GameOver <==> r == GameOver
  {
    match s
    case Playing => Paused
    case Paused => Playing
    case GameOver => GameOver
  }

  const ResumeItem: string := "Resume"
  /** The text a menu item must contain to select the launcher. */
  const MissileName: string := "Missile Launcher"
  const MissileItem: string := "Primary Weapon: " + MissileName + " (Shift Key)"
  const LaserItem: string := "Mining Tool: Laser (Left Mouse)"
  /** `pause_menu_items`, top to bottom. */
  const PauseMenuItems: seq<string> := [ResumeItem, MissileItem, LaserItem]

  /** Python's `part in s` on strings: `part` occurs as a contiguous piece of `s`. */
  predicate HasInfix(s: string, part: string)
    decreases |s|
  {
    |part| <= |s| && (s[..|part|] == part || HasInfix(s[1..], part))
  }

  /** A piece placed between any two strings is found. */
  lemma {:induction false} InfixFound(before: string, part: string, after: string)
    ensures HasInfix(before + part + after, part)
  {
    var s := before + part + after;
    if before != [] {
      assert s[1..] == before[1..] + part + after;
      InfixFound(before[1..], part, after);
    } else {
      assert s[..|part|] == part;
    }
  }

  /** A piece holding a character the string lacks is not found. */
  lemma {:induction false} InfixMissing(s: string, part: string, c: char)
    requires c in part && c !in s
    ensures !HasInfix(s, part)
    decreases |s|
  {
    if |part| <= |s| {
      InfixMissing(s[1..], part, c);
    }
  }

  /**
   * The effect of a pause-menu click: items are checked in order; a hit
   * on "Resume" returns to the game at once, a hit on an item mentioning
   * "Missile Launcher" equips the launcher, and the menu otherwise stays.
   * `hits` says which item rectangles hold the click.
   */
  function MenuClick(items: seq<string>, hits: seq<bool>, kind: string): (GameState, string)
    requires |hits| == |items|
    decreases |items|
  {
    if items == [] then (Paused, kind)
    else if hits[0] && items[0] == "Resume" then (Playing, kind)
    else
      var kind' := if hits[0] && HasInfix(items[0], MissileName) then "MissileLauncher" else kind;
      MenuClick(items[1..], hits[1..], kind')
  }

  /** A three-item menu laid out as the game's: Resume first, then the launcher item, then an inert one. */
  lemma MenuOfThree(items: seq<string>, hits: seq<bool>, kind: string)
    requires |items| == 3 && |hits| == 3
    requires items[0] == "Resume" && items[1] != "Resume" && items[2] != "Resume"
    requires HasInfix(items[1], MissileName) && !HasInfix(items[2], MissileName)
    ensures MenuClick(items, hits, kind) ==
      if hits[0] then (Playing, kind)
      else if hits[1] then (Paused, "MissileLauncher")
      else (Paused, kind)
  {
    assert items[1..][1..] == items[2..] && items[2..][1..] == items[3..] && items[3..] == [];
    if !hits[0] {
      var k1 := if hits[1] then "MissileLauncher" else kind;
      assert MenuClick(items, hits, kind) == MenuClick(items[1..], hits[1..], kind);
      assert MenuClick(items[1..], hits[1..], kind) == MenuClick(items[2..], hits[2..], k1);
      assert MenuClick(items[2..], hits[2..], k1) == MenuClick(items[3..], hits[3..], k1);
    }
  }

  /** On the game's own menu: Resume plays on, the missile item equips the launcher and stays paused, anything else stays paused. */
  lemma PauseMenuOutcome(hits: seq<bool>, kind: string)
    requires |hits| == |PauseMenuItems|
    ensures MenuClick(PauseMenuItems, hits, kind) ==
      if hits[0] then (Playing, kind)
      else if hits[1] then (Paused, "MissileLauncher")
      else (Paused, kind)
  {
    MenuItemsMention();
    MenuOfThree(PauseMenuItems, hits, kind);
  }

  /** Only the second item of the game's menu mentions the launcher. */
  lemma MenuItemsMention()
    ensures HasInfix(MissileItem, MissileName) && !HasInfix(LaserItem, MissileName)
  {
    InfixFound("Primary Weapon: ", MissileName, " (Shift Key)");
    assert 'h' in MissileName && 'h' !in LaserItem;
    InfixMissing(LaserItem, MissileName, 'h');
  }

  /**
   * `handle_pause_menu_click` over the menu `items` (the game passes
   * `PauseMenuItems`), with the item rectangles reduced to which of them
   * hold the click.
   */
  method HandlePauseMenuClick(weapon: Weapon, items: seq<string>, hits: seq<bool>) returns (state: GameState)
    requires |hits| == |items|
    modifies weapon`kind
    ensures (state, weapon.kind) == MenuClick(items, hits, old(weapon.kind))
  {
    var i := 0;
    assert items[0..] == items && hits[0..] == hits;
    while i < |items|
      invariant 0 <= i <= |items|
      invariant MenuClick(items, hits, old(weapon.kind)) == MenuClick(items[i..], hits[i..], weapon.kind)
    {
      assert items[i..][1..] == items[i + 1..] && hits[i..][1..] == hits[i + 1..];
      if hits[i] {
        if items[i] == "Resume" {
          return Playing;
        } else if HasInfix(items[i], MissileName) {
          weapon.kind := "MissileLauncher";
        }
      }
      i := i + 1;
    }
    return Paused;
  }

  // ---------------------------------------------------------------------
  // Score-based respawn
  // ---------------------------------------------------------------------

  /** `5 + score // 200` asteroids at least; Python's `//` by a positive number is Dafny's `/`. */
  function MinAsteroids(score: int): (r: int)
    ensures 200 * (r - 5) <= score < 200 * (r - 4)
  {
    5 + score / 200
  }

  /** `1 + score // 500` enemies at least. */
  function MinEnemies(score: int): (r: int)
    ensures 500 * (r - 1) <= score < 500 * r
  {
    1 + score / 500
  }

  /** From a score of 0, every 200 points raise the asteroid minimum by one and every 500 the enemy minimum. */
  lemma MinimaGrowWithScore(score: int)
    requires score >= 0
    ensures MinAsteroids(score) >= 5 && MinEnemies(score) >= 1
    ensures MinAsteroids(score + 200) == MinAsteroids(score) + 1
    ensures MinEnemies(score + 500) == MinEnemies(score) + 1
  {
  }

  /** The draws behind one respawned asteroid: candidate spots in order, its tier and its velocity. */
  datatype RockDraw = RockDraw(spots: seq<Point>, tier: int, speed: Point)

  /**
   * The asteroids a run of respawn draws adds, in order: one per draw that
   * has a clear spot, at the first such spot, with the draw's tier and velocity.
   */
  function Respawned(player: Point, draws: seq<RockDraw>): (r: seq<Rock>)
    requires forall k :: 0 <= k < |draws| ==> 0 <= draws[k].tier <= SmallestTier
    ensures |r| <= |draws|
    ensures forall k :: 0 <= k < |r| ==>
      ClearOf(r[k].pos, player, SpawnClearance) && 0 <= r[k].sizeIndex <= SmallestTier &&
      r[k].health == AsteroidHealth(r[k].sizeIndex)
    ensures |r| == |draws| <==> forall k :: 0 <= k < |draws| ==> HasClear(player, draws[k].spots, SpawnClearance)
    ensures |r| == |draws| ==> forall k :: 0 <= k < |draws| ==>
      r[k] == NewRock(FirstClear(player, draws[k].spots, SpawnClearance, 0).value, draws[k].tier, draws[k].speed)
    decreases |draws|
  {
    if draws == [] then []
    else
      var d := draws[|draws| - 1];
      var front := Respawned(player, draws[..|draws| - 1]);
      match FirstClear(player, d.spots, SpawnClearance, 0)
      case None => front
      case Some(c) => front + [NewRock(c, d.tier, d.speed)]
  }

  /** The asteroids and enemies on screen; enemies are kept as positions only. */
  class Field {
    var asteroids: seq<Rock>
    var enemies: seq<Point>

    constructor()
      ensures asteroids == [] && enemies == []
    {
      asteroids := [];
      enemies := [];
    }

    /**
     * Below `MinAsteroids(score)` the shortfall is spawned, each new
     * asteroid at its first spot more than 200 from the player.
     */
    method RespawnAsteroids(player: Point, score: int, draws: seq<RockDraw>)
      requires |draws| >= MinAsteroids(score)
      requires forall k :: 0 <= k < |draws| ==> 0 <= draws[k].tier <= SmallestTier
      modifies this`asteroids
      ensures |old(asteroids)| >= MinAsteroids(score) ==> asteroids == old(asteroids)
      ensures |old(asteroids)| <= |asteroids| <= MaxInt(|old(asteroids)|, MinAsteroids(score))
      ensures asteroids[..|old(asteroids)|] == old(asteroids)
      ensures forall k :: |old(asteroids)| <= k < |asteroids| ==>
        ClearOf(asteroids[k].pos, player, SpawnClearance) && 0 <= asteroids[k].sizeIndex <= SmallestTier &&
        asteroids[k].health == AsteroidHealth(asteroids[k].sizeIndex)
      ensures (forall k :: 0 <= k < |draws| ==> HasClear(player, draws[k].spots, SpawnClearance)) ==>
        |asteroids| == MaxInt(|old(asteroids)|, MinAsteroids(score))
      ensures |old(asteroids)| < MinAsteroids(score) ==>
        asteroids == old(asteroids) + Respawned(player, draws[..MinAsteroids(score) - |old(asteroids)|])
    {
      var minimum := MinAsteroids(score);
      if |asteroids| < minimum {
        ghost var start := asteroids;
        var n := minimum - |asteroids|;
        for k := 0 to n
          invariant asteroids == start + Respawned(player, draws[..k])
        {
          assert draws[..k + 1][..k] == draws[..k];
          var spot := GenerateAsteroidPosition(player, draws[k].spots, SpawnClearance);
          if spot.Some? {
            asteroids := asteroids + [NewRock(spot.value, draws[k].tier, draws[k].speed)];
          }
        }
      }
    }

    /** Below `MinEnemies(score)` the shortfall is spawned, each more than 200 from the player. */
    method RespawnEnemies(player: Point, score: int, draws: seq<seq<Point>>)
      requires |draws| >= MinEnemies(score)
      modifies this`enemies
      ensures |old(enemies)| >= MinEnemies(score) ==> enemies == old(enemies)
      ensures |old(enemies)| <= |enemies| <= MaxInt(|old(enemies)|, MinEnemies(score))
      ensures enemies[..|old(enemies)|] == old(enemies)
      ensures forall k :: |old(enemies)| <= k < |enemies| ==> ClearOf(enemies[k], player, SpawnClearance)
      ensures (forall k :: 0 <= k < |draws| ==> HasClear(player, draws[k], SpawnClearance)) ==>
        |enemies| == MaxInt(|old(enemies)|, MinEnemies(score))
      ensures |old(enemies)| < MinEnemies(score) ==>
        enemies == old(enemies) + ClearSpots(player, draws[..MinEnemies(score) - |old(enemies)|], SpawnClearance)
    {
      var minimum := MinEnemies(score);
      if |enemies| < minimum {
        ghost var start := enemies;
        var n := minimum - |enemies|;
        for k := 0 to n
          invariant enemies == start + ClearSpots(player, draws[..k], SpawnClearance)
        {
          assert draws[..k + 1][..k] == draws[..k];
          var spot := GenerateAsteroidPosition(player, draws[k], SpawnClearance);
          if spot.Some? {
            enemies := enemies + [spot.value];
          }
        }
      }
    }
  }
}
