// spacinator.py: the single-screen version with a weapon shop.  The ship
// moves at a fixed speed inside the screen, three weapons can be bought
// from the pause menu with score, the laser costs score while it fires,
// and a small population of asteroids and enemies is kept on screen.

module Spacinator {
  import opened Geometry
  import opened EarlyCommon
  import opened Lifetimes

  const ScreenWidth: real := 800.0
  const ScreenHeight: real := 600.0
  /** The ship's rectangle is 30 by 30 and never rotates. */
  const PlayerSize: real := 30.0
  const MaxPlayerSpeed: real := 5.0
  const MaxAsteroidSpeed: real := 2.0
  const StartingHealth: int := 100
  /** Resources are worth `(type + 1) * 10` and last 600 frames. */
  const ResourceUnit: int := 10
  const ResourceLifetime: int := 600
  /** New asteroids and enemies appear more than 150 from the player. */
  const SpawnClearance: real := 150.0
  const MinAsteroidCount: int := 3
  const EnemyWave: int := 2
  const LaserDrain: real := 0.5
  const LaserReward: real := 5.0

  // ---------------------------------------------------------------------
  // Asteroids and split_asteroid
  // ---------------------------------------------------------------------

  /** Health is twice the width: 80, 60 or 50. */
  function AsteroidHealth(tier: int): (h: real)
    requires 0 <= tier <= SmallestTier
    ensures h == [80.0, 60.0, 50.0][tier]
  {
    (AsteroidSizes[tier] * 2) as real
  }

  function NewRock(pos: Point, tier: int, speed: Point): Rock
    requires 0 <= tier <= SmallestTier
  {
    Rock(pos, tier, speed, AsteroidHealth(tier))
  }

  /**
   * The random part of one child: the direction `(cos a, sin a)` of its
   * displacement and a push per axis drawn from [-2, 2].
   */
  datatype Push = Push(dir: Point, kick: Point)

  /** A child's speed on one axis: half the parent's plus the push over (tier + 1.5); nothing clamps it. */
  function ChildSpeed(parent: real, kick: real, tier: int): real
    requires 0 <= tier
  {
    parent * 0.5 + kick / (tier as real + 1.5)
  }

  function Child(a: Rock, p: Push): Rock
    requires 0 <= a.sizeIndex < SmallestTier
  {
    var tier := a.sizeIndex + 1;
    NewRock(Offset(a.pos, p.dir, AsteroidSizes[tier] as real + 5.0), tier,
            Point(ChildSpeed(a.speed.x, p.kick.x, tier), ChildSpeed(a.speed.y, p.kick.y, tier)))
  }

  /**
   * `split_asteroid`: two asteroids of the next tier pushed `width + 5`
   * away, or, from the smallest tier, as many resources as `kinds` holds
   * (the game draws 1..3) at the asteroid's centre.
   */
  function SplitAsteroid(a: Rock, pushes: seq<Push>, kinds: seq<int>): (items: seq<Piece>)
    requires 0 <= a.sizeIndex <= SmallestTier
    requires |pushes| == 2 && 1 <= |kinds| <= 3
    ensures a.sizeIndex < SmallestTier ==> |items| == 2
    ensures a.sizeIndex < SmallestTier ==>
      forall i :: 0 <= i < 2 ==>
        items[i].Chunk? && items[i].rock.sizeIndex == a.sizeIndex + 1 &&
        items[i].rock.pos == Offset(a.pos, pushes[i].dir, AsteroidSizes[a.sizeIndex + 1] as real + 5.0) &&
        items[i].rock.health == AsteroidHealth(a.sizeIndex + 1) &&
        items[i].rock.speed ==
          Point(a.speed.x * 0.5 + pushes[i].kick.x / ((a.sizeIndex + 1) as real + 1.5),
                a.speed.y * 0.5 + pushes[i].kick.y / ((a.sizeIndex + 1) as real + 1.5))
    ensures a.sizeIndex == SmallestTier ==> 1 <= |items| <= 3 && |items| == |kinds|
    ensures a.sizeIndex == SmallestTier ==>
      forall i :: 0 <= i < |items| ==> items[i] == Pickup(a.pos, kinds[i])
  {
    if a.sizeIndex < SmallestTier then
      [Chunk(Child(a, pushes[0])), Chunk(Child(a, pushes[1]))]
    else
      seq(|kinds|, i requires 0 <= i < |kinds| => Pickup(a.pos, kinds[i]))
  }

  predicate SpeedOk(s: Point)
  {
    -MaxAsteroidSpeed <= s.x <= MaxAsteroidSpeed && -MaxAsteroidSpeed <= s.y <= MaxAsteroidSpeed
  }

  /** Children of an asteroid within the speed limit stay within it, although nothing clamps them. */
  lemma SplitKeepsSpeedLimit(a: Rock, pushes: seq<Push>, kinds: seq<int>)
    requires 0 <= a.sizeIndex < SmallestTier
    requires |pushes| == 2 && 1 <= |kinds| <= 3
    requires SpeedOk(a.speed)
    requires forall i :: 0 <= i < 2 ==> SpeedOk(pushes[i].kick)
    ensures forall p :: p in SplitAsteroid(a, pushes, kinds) ==> p.Chunk? && SpeedOk(p.rock.speed)
  {
    var tier := a.sizeIndex + 1;
    forall i | 0 <= i < 2
      ensures SpeedOk(Child(a, pushes[i]).speed)
    {
      KickWithin(a.speed.x, pushes[i].kick.x, tier);
      KickWithin(a.speed.y, pushes[i].kick.y, tier);
    }
  }

  lemma KickWithin(parent: real, kick: real, tier: int)
    requires 1 <= tier
    requires -MaxAsteroidSpeed <= parent <= MaxAsteroidSpeed && -MaxAsteroidSpeed <= kick <= MaxAsteroidSpeed
    ensures -MaxAsteroidSpeed <= ChildSpeed(parent, kick, tier) <= MaxAsteroidSpeed
  {
    var d := tier as real + 1.5;
    assert d >= 2.5;
    var q := kick / d;
    assert q * d == kick;
  }

  /** A missile does 20 and hits asteroids twice over: a large asteroid breaks on the second missile. */
  lemma MissilesToBreakLarge(k: nat)
    ensures HitTimes(AsteroidHealth(0), 20.0 * 2.0, k) <= 0.0 <==> k >= 2
  {
    HitsToDestroy(AsteroidHealth(0), 20.0 * 2.0, k);
  }

  /** A dropped resource disappears on its 600th update. */
  lemma ResourceLasts600(n: nat)
    ensures FuseAfter(ResourceLifetime, n).alive <==> n < 600
  {
    ResourceExpires(ResourceLifetime, n);
  }

  // ---------------------------------------------------------------------
  // Weapons
  // ---------------------------------------------------------------------

  /** An entry of `WEAPON_TYPES`: the internal type and the price in score. */
  datatype WeaponInfo = WeaponInfo(kind: string, cost: int)

  const MissileLauncher: string := "MissileLauncher"
  const LaserCannon: string := "LaserCannon"
  const PlasmaBlaster: string := "PlasmaBlaster"

  /** `WEAPON_TYPES`, keyed by the name shown in the shop. */
  const WeaponTypes: map<string, WeaponInfo> := map[
    "Missile Launcher" := WeaponInfo(MissileLauncher, 0),
    "Laser Cannon" := WeaponInfo(LaserCannon, 500),
    "Plasma Blaster" := WeaponInfo(PlasmaBlaster, 1000)]

  const StartingWeapon: string := "Missile Launcher"

  /** The fire delay and damage `set_weapon_type` gives each type; other types keep the old values. */
  function Loadout(kind: string, delay: real, damage: real): (r: (real, real))
    ensures kind == MissileLauncher ==> r == (0.4, 20.0)
    ensures kind == LaserCannon ==> r == (0.05, 0.5)
    ensures kind == PlasmaBlaster ==> r == (0.7, 50.0)
    ensures kind !in {MissileLauncher, LaserCannon, PlasmaBlaster} ==> r == (delay, damage)
  {
    if kind == MissileLauncher then (0.4, 20.0)
    else if kind == LaserCannon then (0.05, 0.5)
    else if kind == PlasmaBlaster then (0.7, 50.0)
    else (delay, damage)
  }

  /** The projectiles `Weapon.fire` can return, with the damage each carries. */
  datatype Projectile = Missile(origin: Point) | PlasmaBolt(origin: Point, aim: Point)

  function ProjectileDamage(p: Projectile): real
  {
    match p
    case Missile(_) => 20.0
    case PlasmaBolt(_, _) => 50.0
  }

  /** `Weapon`: the equipped type, its fire delay and damage, and the cooldown. */
  class Weapon {
    var typeName: string
    var kind: string
    var shootDelay: real
    var damage: real
    var nextFire: real
    var ready: bool

    constructor(name: string, now: real)
      requires name in WeaponTypes
      ensures typeName == name && kind == WeaponTypes[name].kind
      ensures (shootDelay, damage) == Loadout(kind, 0.0, 0.0)
      ensures nextFire == now && ready
    {
      typeName := name;
      kind := WeaponTypes[name].kind;
      var loadout := Loadout(WeaponTypes[name].kind, 0.0, 0.0);
      shootDelay := loadout.0;
      damage := loadout.1;
      nextFire := now;
      ready := true;
    }

    /** `set_weapon_type`: the shop name must be a key of the table. */
    method SetWeaponType(name: string)
      requires name in WeaponTypes
      modifies this
      ensures typeName == name && kind == WeaponTypes[name].kind
      ensures (shootDelay, damage) == Loadout(kind, old(shootDelay), old(damage))
      ensures ready && nextFire == old(nextFire)
    {
      typeName := name;
      kind := WeaponTypes[name].kind;
      if kind == MissileLauncher {
        shootDelay := 0.4;
        damage := 20.0;
      } else if kind == LaserCannon {
        shootDelay := 0.05;
        damage := 0.5;
      } else if kind == PlasmaBlaster {
        shootDelay := 0.7;
        damage := 50.0;
      }
      ready := true;
    }

    /** `update`: ready again once the clock is strictly past `next_fire`. */
    method Update(now: real)
      modifies this`ready
      ensures ready <==> old(ready) || now > nextFire
    {
      if now > nextFire {
        ready := true;
      }
    }

    /**
     * `fire`: a missile needs a target, a plasma bolt a target position;
     * the laser never produces a projectile here.  A shot restarts the
     * cooldown; anything else changes nothing.
     */
    method Fire(now: real, origin: Point, hasTarget: bool, targetPos: Option<Point>) returns (shot: Option<Projectile>)
      modifies this`nextFire, this`ready
      ensures shot.Some? <==>
        old(ready) && ((kind == MissileLauncher && hasTarget) || (kind == PlasmaBlaster && targetPos.Some?))
      ensures shot.Some? && kind == MissileLauncher ==> shot.value == Missile(origin)
      ensures shot.Some? && kind == PlasmaBlaster ==> shot.value == PlasmaBolt(origin, targetPos.value)
      ensures shot.Some? ==> !ready && nextFire == now + shootDelay
      ensures shot.None? ==> ready == old(ready) && nextFire == old(nextFire)
      ensures kind == LaserCannon ==> shot.None?
    {
      shot := None;
      if ready {
        if kind == MissileLauncher && hasTarget {
          nextFire := now + shootDelay;
          ready := false;
          shot := Some(Missile(origin));
        } else if kind == PlasmaBlaster && targetPos.Some? {
          nextFire := now + shootDelay;
          ready := false;
          shot := Some(PlasmaBolt(origin, targetPos.value));
        }
      }
    }
  }

  // ---------------------------------------------------------------------
  // The weapon shop
  // ---------------------------------------------------------------------

  /** A shop click is honoured when the player can pay or already has that weapon equipped. */
  predicate MaySelect(score: real, equipped: string, name: string)
    requires name in WeaponTypes
  {
    score >= WeaponTypes[name].cost as real || equipped == name
  }

  /**
   * Score and equipped weapon after a shop click.  The price is charged
   * whenever the weapon changes, including back to one bought earlier.
   */
  function AfterSelect(score: real, equipped: string, name: string): (r: (real, string))
    requires name in WeaponTypes
    ensures !MaySelect(score, equipped, name) ==> r == (score, equipped)
    ensures MaySelect(score, equipped, name) ==> r.1 == name
    ensures MaySelect(score, equipped, name) && equipped != name ==> r.0 == score - WeaponTypes[name].cost as real
    ensures equipped == name ==> r == (score, equipped)
    ensures score >= 0.0 ==> r.0 >= 0.0
  {
    if MaySelect(score, equipped, name) then
      (if equipped != name then score - WeaponTypes[name].cost as real else score, name)
    else (score, equipped)
  }

  /** Buying the laser, going back to missiles and returning to the laser pays for the laser twice. */
  lemma ReturningIsChargedAgain(score: real)
    requires score >= 1000.0
    ensures var s1 := AfterSelect(score, "Missile Launcher", "Laser Cannon");
      var s2 := AfterSelect(s1.0, s1.1, "Missile Launcher");
      AfterSelect(s2.0, s2.1, "Laser Cannon") == (score - 1000.0, "Laser Cannon")
  {
  }

  // ---------------------------------------------------------------------
  // The laser
  // ---------------------------------------------------------------------

  /** Every asteroid under the cursor loses `amount` of health; the others are untouched. */
  function Struck(rocks: seq<Rock>, hits: seq<bool>, amount: real): (r: seq<Rock>)
    requires |hits| == |rocks|
    ensures |r| == |rocks|
    ensures forall i :: 0 <= i < |rocks| ==> r[i] == if hits[i] then rocks[i].(health := rocks[i].health - amount) else rocks[i]
  {
    seq(|rocks|, i requires 0 <= i < |rocks| => if hits[i] then rocks[i].(health := rocks[i].health - amount) else rocks[i])
  }

  /**
   * One laser frame over the asteroid list: asteroids under the cursor are
   * damaged in order until the first whose health runs out, which is taken
   * out of the list and returned; the asteroids after it are untouched.
   */
  function LaserPass(rocks: seq<Rock>, hits: seq<bool>, amount: real): (r: (seq<Rock>, Option<Rock>))
    requires |hits| == |rocks|
    ensures |r.0| == |rocks| - (if r.1.Some? then 1 else 0)
    ensures r.1.Some? ==> r.1.value.health <= 0.0
    ensures r.1.Some? ==>
      exists i :: 0 <= i < |rocks| && hits[i] && r.1.value == rocks[i].(health := rocks[i].health - amount)
    ensures r.1.None? ==>
      forall i :: 0 <= i < |rocks| ==> r.0[i] == if hits[i] then rocks[i].(health := rocks[i].health - amount) else rocks[i]
    decreases |rocks|
  {
    if rocks == [] then ([], None)
    else if hits[0] then
      var (a, dead) := DamageRock(rocks[0], amount);
      if dead then (rocks[1..], Some(a))
      else
        var rest := LaserPass(rocks[1..], hits[1..], amount);
        ([a] + rest.0, rest.1)
    else
      var rest := LaserPass(rocks[1..], hits[1..], amount);
      ([rocks[0]] + rest.0, rest.1)
  }

  /**
   * The laser frame `r` destroyed the asteroid at index `j`: it was under the
   * cursor and ran out of health, every asteroid under the cursor before it
   * survived the hit, those before it are damaged and those after it untouched.
   */
  predicate KilledAt(rocks: seq<Rock>, hits: seq<bool>, amount: real, r: (seq<Rock>, Option<Rock>), j: int)
    requires |hits| == |rocks|
  {
    0 <= j < |rocks| && hits[j] && r.1 == Some(rocks[j].(health := rocks[j].health - amount)) &&
    (forall i :: 0 <= i < j && hits[i] ==> rocks[i].health - amount > 0.0) &&
    r.0 == Struck(rocks[..j], hits[..j], amount) + rocks[j + 1..]
  }

  /** Striking a list is striking its head and then its tail. */
  lemma StruckCons(rocks: seq<Rock>, hits: seq<bool>, amount: real, n: int)
    requires |hits| == |rocks| && 1 <= n <= |rocks|
    ensures [if hits[0] then rocks[0].(health := rocks[0].health - amount) else rocks[0]] +
      Struck(rocks[1..n], hits[1..n], amount) == Struck(rocks[..n], hits[..n], amount)
  {
  }

  /** The kill index moves up by one when an asteroid that survives is put in front. */
  lemma KilledAtCons(rocks: seq<Rock>, hits: seq<bool>, amount: real, rest: (seq<Rock>, Option<Rock>), j': int)
    requires |hits| == |rocks| && |rocks| >= 1
    requires !hits[0] || rocks[0].health - amount > 0.0
    requires KilledAt(rocks[1..], hits[1..], amount, rest, j')
    ensures KilledAt(rocks, hits, amount,
      ([if hits[0] then rocks[0].(health := rocks[0].health - amount) else rocks[0]] + rest.0, rest.1), j' + 1)
  {
    var j := j' + 1;
    assert rocks[1..][..j'] == rocks[1..j] && hits[1..][..j'] == hits[1..j];
    assert rocks[1..][j' + 1..] == rocks[j + 1..];
    StruckCons(rocks, hits, amount, j);
    forall i | 0 < i < j && hits[i]
      ensures rocks[i].health - amount > 0.0
    {
      assert hits[1..][i - 1] && rocks[1..][i - 1] == rocks[i];
    }
  }

  /**
   * What a laser frame does, exactly: either no asteroid under the cursor
   * runs out of health and every one of them is damaged, or the first that
   * runs out is the one destroyed (`KilledAt`).
   */
  lemma {:induction false} LaserPassSound(rocks: seq<Rock>, hits: seq<bool>, amount: real)
    requires |hits| == |rocks|
    ensures LaserPass(rocks, hits, amount).1.Some? ==>
      exists j :: KilledAt(rocks, hits, amount, LaserPass(rocks, hits, amount), j)
    ensures LaserPass(rocks, hits, amount).1.None? ==>
      LaserPass(rocks, hits, amount).0 == Struck(rocks, hits, amount) &&
      forall i :: 0 <= i < |rocks| && hits[i] ==> rocks[i].health - amount > 0.0
    decreases |rocks|
  {
    if rocks != [] {
      var a := rocks[0].(health := rocks[0].health - amount);
      if hits[0] && a.health <= 0.0 {
        assert Struck(rocks[..0], hits[..0], amount) == [];
        assert KilledAt(rocks, hits, amount, LaserPass(rocks, hits, amount), 0);
      } else {
        LaserPassSound(rocks[1..], hits[1..], amount);
        var rest := LaserPass(rocks[1..], hits[1..], amount);
        var head := if hits[0] then a else rocks[0];
        assert LaserPass(rocks, hits, amount) == ([head] + rest.0, rest.1);
        if rest.1.Some? {
          var j' :| KilledAt(rocks[1..], hits[1..], amount, rest, j');
          KilledAtCons(rocks, hits, amount, rest, j');
        } else {
          StruckCons(rocks, hits, amount, |rocks|);
          assert rocks[..|rocks|] == rocks && hits[..|hits|] == hits;
          assert forall i :: 0 < i < |rocks| && hits[i] ==> hits[1..][i - 1] && rocks[1..][i - 1] == rocks[i];
        }
      }
    }
  }

  /** A laser held on one asteroid alone destroys it on the frame its health runs out, and not before. */
  lemma {:induction false} LaserWearsDown(a: Rock, amount: real, k: nat)
    requires amount > 0.0
    ensures LaserPass([a.(health := HitTimes(a.health, amount, k))], [true], amount).1.Some? <==>
      (k + 1) as real * amount >= a.health
  {
    HitsToDestroy(a.health, amount, k);
    HitsToDestroy(a.health, amount, k + 1);
  }

  // ---------------------------------------------------------------------
  // The player's ship
  // ---------------------------------------------------------------------

  /** `Spaceship`: rectangle corner, velocity, health, score, weapon and the firing flags. */
  class Spaceship {
    var pos: Point
    var speed: Point
    var health: int
    var score: real
    var shootingLaser: bool
    const weapon: Weapon

    constructor(center: Point, now: real)
      ensures pos == Point(center.x - PlayerSize / 2.0, center.y - PlayerSize / 2.0)
      ensures speed == Point(0.0, 0.0) && health == StartingHealth && score == 0.0 && !shootingLaser
      ensures fresh(weapon) && weapon.typeName == StartingWeapon && weapon.kind == MissileLauncher && weapon.ready
    {
      pos := Point(center.x - PlayerSize / 2.0, center.y - PlayerSize / 2.0);
      speed := Point(0.0, 0.0);
      health := StartingHealth;
      score := 0.0;
      shootingLaser := false;
      weapon := new Weapon(StartingWeapon, now);
    }

    /** `update`: move by the velocity and keep the whole rectangle on screen; the weapon cools down. */
    method Update(now: real)
      modifies this`pos, weapon`ready
      ensures pos == LimitPosition(Point(old(pos.x) + speed.x, old(pos.y) + speed.y),
                                   ScreenWidth - PlayerSize, ScreenHeight - PlayerSize)
      ensures 0.0 <= pos.x <= ScreenWidth - PlayerSize && 0.0 <= pos.y <= ScreenHeight - PlayerSize
      ensures weapon.ready <==> old(weapon.ready) || now > weapon.nextFire
    {
      var x := pos.x + speed.x;
      var y := pos.y + speed.y;
      x := MaxReal(0.0, MinReal(x, ScreenWidth - PlayerSize));
      y := MaxReal(0.0, MinReal(y, ScreenHeight - PlayerSize));
      pos := Point(x, y);
      weapon.Update(now);
    }

    /** `accelerate`: sets only the named axis, to plus or minus 5 or to 0; other names do nothing. */
    method Accelerate(direction: string)
      modifies this`speed
      ensures direction == "up" ==> speed == old(speed).(y := -MaxPlayerSpeed)
      ensures direction == "down" ==> speed == old(speed).(y := MaxPlayerSpeed)
      ensures direction == "left" ==> speed == old(speed).(x := -MaxPlayerSpeed)
      ensures direction == "right" ==> speed == old(speed).(x := MaxPlayerSpeed)
      ensures direction == "stop_x" ==> speed == old(speed).(x := 0.0)
      ensures direction == "stop_y" ==> speed == old(speed).(y := 0.0)
      ensures direction !in {"up", "down", "left", "right", "stop_x", "stop_y"} ==> speed == old(speed)
    {
      if direction == "up" {
        speed := speed.(y := -MaxPlayerSpeed);
      } else if direction == "down" {
        speed := speed.(y := MaxPlayerSpeed);
      } else if direction == "left" {
        speed := speed.(x := -MaxPlayerSpeed);
      } else if direction == "right" {
        speed := speed.(x := MaxPlayerSpeed);
      } else if direction == "stop_x" {
        speed := speed.(x := 0.0);
      } else if direction == "stop_y" {
        speed := speed.(y := 0.0);
      }
    }

    /** The shop click handler: the rule of `AfterSelect`, applied to the ship and its weapon. */
    method SelectWeapon(name: string)
      requires name in WeaponTypes
      modifies this`score, weapon
      ensures (score, weapon.typeName) == AfterSelect(old(score), old(weapon.typeName), name)
      ensures MaySelect(old(score), old(weapon.typeName), name) ==>
        weapon.kind == WeaponTypes[name].kind && weapon.ready &&
        (weapon.shootDelay, weapon.damage) == Loadout(weapon.kind, old(weapon.shootDelay), old(weapon.damage))
      ensures !MaySelect(old(score), old(weapon.typeName), name) ==>
        weapon.kind == old(weapon.kind) && weapon.ready == old(weapon.ready) &&
        weapon.shootDelay == old(weapon.shootDelay) && weapon.damage == old(weapon.damage)
      ensures weapon.nextFire == old(weapon.nextFire)
    {
      var info := WeaponTypes[name];
      if score >= info.cost as real || weapon.typeName == name {
        if weapon.typeName != name {
          score := score - info.cost as real;
        }
        weapon.SetWeaponType(name);
      }
    }

    /**
     * The laser branch of the frame, run when the laser is equipped.  While
     * it fires with a positive score it costs 0.5 (never below 0), damages
     * asteroids under the cursor by the weapon's damage and destroys at most
     * one, for 5 points; otherwise it switches off.  `hits` says which
     * asteroids are under the cursor; the split of a destroyed asteroid
     * uses the drawn `pushes` and `kinds`.
     */
    method LaserFrame(rocks: seq<Rock>, hits: seq<bool>, pushes: seq<Push>, kinds: seq<int>)
      returns (remaining: seq<Rock>, pieces: seq<Piece>)
      requires weapon.kind == LaserCannon
      requires |hits| == |rocks| && |pushes| == 2 && 1 <= |kinds| <= 3
      requires forall i :: 0 <= i < |rocks| ==> 0 <= rocks[i].sizeIndex <= SmallestTier
      modifies this`score, this`shootingLaser
      ensures old(shootingLaser) && old(score) > 0.0 ==>
        var pass := LaserPass(rocks, hits, weapon.damage);
        remaining == pass.0 && shootingLaser &&
        score == MaxReal(0.0, old(score) - LaserDrain) + (if pass.1.Some? then LaserReward else 0.0) &&
        pieces == (if pass.1.Some? then SplitAsteroid(pass.1.value, pushes, kinds) else [])
      ensures !(old(shootingLaser) && old(score) > 0.0) ==>
        remaining == rocks && pieces == [] && !shootingLaser && score == old(score)
    {
      if shootingLaser && score > 0.0 {
        score := score - LaserDrain;
        if score < 0.0 {
          score := 0.0;
        }
        remaining, pieces := [], [];
        var amount := weapon.damage;
        ghost var whole := LaserPass(rocks, hits, amount);
        var i := 0;
        assert rocks[0..] == rocks && hits[0..] == hits;
        while i < |rocks|
          invariant 0 <= i <= |rocks|
          invariant whole.0 == remaining + LaserPass(rocks[i..], hits[i..], amount).0
          invariant whole.1 == LaserPass(rocks[i..], hits[i..], amount).1
          invariant pieces == []
          invariant score == MaxReal(0.0, old(score) - LaserDrain)
        {
          ghost var tail := LaserPass(rocks[i..], hits[i..], amount);
          assert rocks[i..][1..] == rocks[i + 1..] && hits[i..][1..] == hits[i + 1..];
          ghost var next := LaserPass(rocks[i + 1..], hits[i + 1..], amount);
          if hits[i] {
            var (a, dead) := DamageRock(rocks[i], amount);
            if dead {
              assert tail == (rocks[i + 1..], Some(a));
              score := score + LaserReward;
              pieces := SplitAsteroid(a, pushes, kinds);
              remaining := remaining + rocks[i + 1..];
              return;
            }
            assert tail == ([a] + next.0, next.1);
            assert remaining + tail.0 == (remaining + [a]) + next.0;
            remaining := remaining + [a];
          } else {
            assert tail == ([rocks[i]] + next.0, next.1);
            assert remaining + tail.0 == (remaining + [rocks[i]]) + next.0;
            remaining := remaining + [rocks[i]];
          }
          i := i + 1;
        }
      } else {
        shootingLaser := false;
        remaining, pieces := rocks, [];
      }
    }
  }

  // ---------------------------------------------------------------------
  // Respawn
  // ---------------------------------------------------------------------

  /** The draws behind one respawned asteroid: candidate spots in order, its tier and its velocity. */
  datatype RockDraw = RockDraw(spots: seq<Point>, tier: int, speed: Point)

  /**
   * The asteroids a run of respawn draws adds, in order: one per draw that
   * has a clear spot, at the first such spot, with the draw's tier and velocity.
   */
  function Respawned(player: Point, draws: seq<RockDraw>): (r: seq<Rock>)
    requires forall k :: 0 <= k < |draws| ==> 0 <= draws[k].tier <= SmallestTier
    ensures |r| <= |draws|
    ensures forall k :: 0 <= k < |r| ==>
      ClearOf(r[k].pos, player, SpawnClearance) && 0 <= r[k].sizeIndex <= SmallestTier &&
      r[k].health == AsteroidHealth(r[k].sizeIndex)
    ensures |r| == |draws| <==> forall k :: 0 <= k < |draws| ==> HasClear(player, draws[k].spots, SpawnClearance)
    ensures |r| == |draws| ==> forall k :: 0 <= k < |draws| ==>
      r[k] == NewRock(FirstClear(player, draws[k].spots, SpawnClearance, 0).value, draws[k].tier, draws[k].speed)
    decreases |draws|
  {
    if draws == [] then []
    else
      var d := draws[|draws| - 1];
      var front := Respawned(player, draws[..|draws| - 1]);
      match FirstClear(player, d.spots, SpawnClearance, 0)
      case None => front
      case Some(c) => front + [NewRock(c, d.tier, d.speed)]
  }

  /** The asteroids and enemies on screen; enemies are kept as positions only. */
  class Arena {
    var asteroids: seq<Rock>
    var enemies: seq<Point>

    constructor()
      ensures asteroids == [] && enemies == []
    {
      asteroids := [];
      enemies := [];
    }

    /**
     * Below three asteroids the shortfall is spawned; each new asteroid
     * sits at its first spot more than 150 from the player, with health
     * twice its width.
     */
    method RespawnAsteroids(player: Point, draws: seq<RockDraw>)
      requires |draws| >= MinAsteroidCount
      requires forall k :: 0 <= k < |draws| ==> 0 <= draws[k].tier <= SmallestTier
      modifies this`asteroids
      ensures |old(asteroids)| >= MinAsteroidCount ==> asteroids == old(asteroids)
      ensures |old(asteroids)| <= |asteroids| <= MaxInt(|old(asteroids)|, MinAsteroidCount)
      ensures asteroids[..|old(asteroids)|] == old(asteroids)
      ensures forall k :: |old(asteroids)| <= k < |asteroids| ==>
        ClearOf(asteroids[k].pos, player, SpawnClearance) && 0 <= asteroids[k].sizeIndex <= SmallestTier &&
        asteroids[k].health == AsteroidHealth(asteroids[k].sizeIndex)
      ensures (forall k :: 0 <= k < |draws| ==> HasClear(player, draws[k].spots, SpawnClearance)) ==>
        |asteroids| == MaxInt(|old(asteroids)|, MinAsteroidCount)
      ensures |old(asteroids)| < MinAsteroidCount ==>
        asteroids == old(asteroids) + Respawned(player, draws[..MinAsteroidCount - |old(asteroids)|])
    {
      if |asteroids| < MinAsteroidCount {
        ghost var start := asteroids;
        var n := MinAsteroidCount - |asteroids|;
        for k := 0 to n
          invariant asteroids == start + Respawned(player, draws[..k])
        {
          assert draws[..k + 1][..k] == draws[..k];
          var spot := GenerateAsteroidPosition(player, draws[k].spots, SpawnClearance);
          if spot.Some? {
            asteroids := asteroids + [NewRock(spot.value, draws[k].tier, draws[k].speed)];
          }
        }
      }
    }

    /** With no enemy left, two are spawned, each more than 150 from the player. */
    method RespawnEnemies(player: Point, draws: seq<seq<Point>>)
      requires |draws| >= EnemyWave
      modifies this`enemies
      ensures |old(enemies)| >= 1 ==> enemies == old(enemies)
      ensures |old(enemies)| == 0 ==> |enemies| <= EnemyWave
      ensures forall k :: |old(enemies)| <= k < |enemies| ==> ClearOf(enemies[k], player, SpawnClearance)
      ensures |old(enemies)| == 0 && (forall k :: 0 <= k < |draws| ==> HasClear(player, draws[k], SpawnClearance)) ==>
        |enemies| == EnemyWave
      ensures |old(enemies)| == 0 ==> enemies == ClearSpots(player, draws[..EnemyWave], SpawnClearance)
    {
      if |enemies| < 1 {
        var n := EnemyWave - |enemies|;
        for k := 0 to n
          invariant enemies == ClearSpots(player, draws[..k], SpawnClearance)
        {
          assert draws[..k + 1][..k] == draws[..k];
          var spot := GenerateAsteroidPosition(player, draws[k], SpawnClearance);
          if spot.Some? {
            enemies := enemies + [spot.value];
          }
        }
      }
    }
  }
}
