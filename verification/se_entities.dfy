// The non-player sprites of space_exp.py as records: asteroids, the three
// enemy kinds, the enemy base, dropped materials and ship parts, together
// with their damage rules, the weighted material-drop table, the enemy-base
// proximity buff and the base turrets' accuracy.

module SpaceExpEntities {
  import opened Geometry

  // ---------------------------------------------------------------------
  // Damage
  // ---------------------------------------------------------------------

  /**
   * Every `take_damage` in the game: subtract, then raise a negative result
   * to zero.  The result is zero exactly when the hit was at least the
   * remaining health, and otherwise it is the plain difference.
   */
  function DamagedInt(health: int, amount: int): (r: int)
    ensures r >= 0
    ensures r == 0 <==> amount >= health
    ensures r > 0 ==> r == health - amount
  {
    if health - amount < 0 then 0 else health - amount
  }

  /** `take_damage` on a float health value (asteroids). */
  function DamagedReal(health: real, amount: real): (r: real)
    ensures r >= 0.0
    ensures r == 0.0 <==> amount >= health
    ensures r > 0.0 ==> r == health - amount
  {
    if health - amount < 0.0 then 0.0 else health - amount
  }

  function Sum(ds: seq<int>): int
  {
    if ds == [] then 0 else ds[0] + Sum(ds[1..])
  }

  /** Applying hits one after another, each through `take_damage`. */
  function DamagedBy(health: int, ds: seq<int>): int
    decreases ds
  {
    if ds == [] then health else DamagedBy(DamagedInt(health, ds[0]), ds[1..])
  }

  /**
   * A batch of hits clamps exactly like one hit of their total: clamping at
   * zero after every hit loses nothing compared with clamping once.
   */
  lemma {:induction false} DamagedByIsTotal(health: int, ds: seq<int>)
    requires health >= 0
    requires forall i :: 0 <= i < |ds| ==> ds[i] >= 0
    ensures DamagedBy(health, ds) == DamagedInt(health, Sum(ds))
  {
    if ds != [] {
      DamagedByIsTotal(DamagedInt(health, ds[0]), ds[1..]);
      SumNonNegative(ds[1..]);
    }
  }

  lemma {:induction false} SumNonNegative(ds: seq<int>)
    requires forall i :: 0 <= i < |ds| ==> ds[i] >= 0
    ensures Sum(ds) >= 0
  {
    if ds != [] {
      SumNonNegative(ds[1..]);
    }
  }

  // ---------------------------------------------------------------------
  // Asteroids and drops
  // ---------------------------------------------------------------------

  /**
   * An asteroid; `zone` names the mining zone whose own group also holds it
   * (general asteroids have none).
   */
  datatype Asteroid = Asteroid(
    pos: Point, size: int, health: real, maxHealth: real, stealth: bool, revealed: bool,
    zone: Option<nat>)

  /** `Asteroid(x, y, size, resources, is_stealth)`: health starts full at size * 2. */
  function NewAsteroid(pos: Point, size: int, stealth: bool, zone: Option<nat>): (a: Asteroid)
    ensures a.health == a.maxHealth == (2 * size) as real
    ensures a.pos == pos && a.size == size && a.stealth == stealth && !a.revealed && a.zone == zone
  {
    Asteroid(pos, size, (size * 2) as real, (size * 2) as real, stealth, false, zone)
  }

  /** Whether the player can see (and therefore mine or target) the asteroid. */
  predicate Shown(a: Asteroid)
  {
    !a.stealth || a.revealed
  }

  function AsteroidTakeDamage(a: Asteroid, amount: real): (r: Asteroid)
    ensures r == a.(health := DamagedReal(a.health, amount))
    ensures r.health <= 0.0 <==> amount >= a.health
  {
    a.(health := DamagedReal(a.health, amount))
  }

  datatype MaterialDrop = MaterialDrop(pos: Point, kind: string, amount: int)

  datatype ShipPart = ShipPart(pos: Point, size: int)

  /** The drop table in the order `get_material_drop` walks it. */
  const DropTable: seq<(string, real)> := [("Carbon", 0.70), ("Silicon", 0.25), ("Gold", 0.05)]

  /** The running sum of the first n chances of the drop table. */
  function CumulativeChance(n: nat): real
    requires n <= |DropTable|
  {
    if n == 0 then 0.0 else CumulativeChance(n - 1) + DropTable[n - 1].1
  }

  /** The material a roll selects, read off the drop table's running sums 0.70, 0.95 and 1.0. */
  function MaterialFor(roll: real): Option<string>
  {
    if roll < 0.70 then Some("Carbon")
    else if roll < 0.95 then Some("Silicon")
    else if roll < 1.0 then Some("Gold")
    else None
  }

  /**
   * `get_material_drop`: walk the table adding up chances and drop the first
   * material whose running sum exceeds the roll; a roll of 1.0 or more drops
   * nothing.  Each drop is one unit.
   */
  method GetMaterialDrop(roll: real) returns (kind: Option<string>, amount: int)
    ensures kind == Some("Carbon") <==> roll < 0.70
    ensures kind == Some("Silicon") <==> 0.70 <= roll < 0.95
    ensures kind == Some("Gold") <==> 0.95 <= roll < 1.0
    ensures kind == None <==> roll >= 1.0
    ensures amount == (if kind.Some? then 1 else 0)
    ensures kind == MaterialFor(roll)
  {
    assert CumulativeChance(1) == 0.70 && CumulativeChance(2) == 0.95 && CumulativeChance(3) == 1.0;
    var cumulative := 0.0;
    kind := None;
    var i := 0;
    while i < |DropTable| && kind.None?
      invariant 0 <= i <= |DropTable|
      invariant kind.None? ==> cumulative == CumulativeChance(i) && (i > 0 ==> roll >= cumulative)
      invariant kind.Some? ==>
        1 <= i && kind.value == DropTable[i - 1].0 &&
        (i > 1 ==> CumulativeChance(i - 1) <= roll) && roll < CumulativeChance(i)
    {
      cumulative := cumulative + DropTable[i].1;
      if roll < cumulative {
        kind := Some(DropTable[i].0);
      }
      i := i + 1;
    }
    amount := if kind.Some? then 1 else 0;
  }

  // ---------------------------------------------------------------------
  // Enemies
  // ---------------------------------------------------------------------

  datatype EnemyKind = Regular | Elite | Fast

  datatype Enemy = Enemy(
    kind: EnemyKind, pos: Point, health: int, maxHealth: int,
    baseSpeed: real, speed: real, baseDamage: int, currentDamage: int,
    baseCooldown: real, currentCooldown: real, accuracy: real, lastShot: int,
    xpValue: int, dropChance: real, partAmount: int)

  /** `Enemy(x, y)`, `EliteEnemy(x, y)` and `FastEnemy(x, y)`. */
  function NewEnemy(kind: EnemyKind, pos: Point): (e: Enemy)
    ensures e.kind == kind && e.pos == pos && e.lastShot == 0 && e.accuracy == 0.0
    ensures e.health == e.maxHealth > 0 && e.speed == e.baseSpeed && e.currentDamage == e.baseDamage &&
      e.currentCooldown == e.baseCooldown
    ensures kind == Regular ==>
      e.health == 50 && e.baseSpeed == 1.5 && e.xpValue == 100 &&
      e.dropChance == 0.5 && e.partAmount == 1 && e.baseDamage == 10 && e.baseCooldown == 1000.0
    ensures kind == Elite ==>
      e.health == 150 && e.baseSpeed == 2.0 && e.xpValue == 300 &&
      e.dropChance == 0.8 && e.partAmount == 3 && e.baseDamage == 20 && e.baseCooldown == 500.0
    ensures kind == Fast ==>
      e.health == 30 && e.baseSpeed == 3.0 && e.xpValue == 75 &&
      e.dropChance == 0.3 && e.partAmount == 1 && e.baseDamage == 10 && e.baseCooldown == 750.0
  {
    match kind
    case Regular => Enemy(Regular, pos, 50, 50, 1.5, 1.5, 10, 10, 1000.0, 1000.0, 0.0, 0, 100, 0.5, 1)
    case Elite => Enemy(Elite, pos, 150, 150, 2.0, 2.0, 20, 20, 1000.0 / 2.0, 1000.0 / 2.0, 0.0, 0, 300, 0.8, 3)
    case Fast => Enemy(Fast, pos, 30, 30, 3.0, 3.0, 10, 10, 1000.0 * 0.75, 1000.0 * 0.75, 0.0, 0, 75, 0.3, 1)
  }

  predicate WellFormedEnemy(e: Enemy)
  {
    e.baseDamage >= 0 && e.baseCooldown > 0.0 && e.baseSpeed > 0.0
  }

  function EnemyTakeDamage(e: Enemy, amount: int): (r: Enemy)
    ensures r == e.(health := DamagedInt(e.health, amount))
    ensures r.health <= 0 <==> amount >= e.health
  {
    e.(health := DamagedInt(e.health, amount))
  }

  const ProximityRadius: real := 1200.0
  const MaxAccuracyOffset: real := 30.0
  const MinAccuracyOffset: real := 0.0

  /**
   * The enemy-base proximity multiplier, for an enemy at distance d from the
   * base: 2 at the base, falling linearly to 1 at the proximity radius, and 1
   * beyond it or when there is no base.
   */
  function ProximityMultiplier(hasBase: bool, d: real): (m: real)
    requires d >= 0.0
    ensures 1.0 <= m <= 2.0
    ensures !hasBase || d >= ProximityRadius ==> m == 1.0
    ensures hasBase && d == 0.0 ==> m == 2.0
    ensures hasBase && d < ProximityRadius ==> m == 2.0 - d / ProximityRadius
  {
    if hasBase && d < ProximityRadius then
      Clamp(1.0 + (1.0 - d / ProximityRadius), 1.0, 2.0)
    else 1.0
  }

  /** Nearer to the base never means a weaker buff. */
  lemma ProximityMonotone(hasBase: bool, d1: real, d2: real)
    requires 0.0 <= d1 <= d2
    ensures ProximityMultiplier(hasBase, d1) >= ProximityMultiplier(hasBase, d2)
  {
  }

  /** The buff part of `Enemy.update`: speed, damage, cooldown and accuracy scaled by m. */
  function Buffed(e: Enemy, m: real): (r: Enemy)
    requires 1.0 <= m <= 2.0 && WellFormedEnemy(e)
    ensures r == e.(speed := r.speed, currentDamage := r.currentDamage,
                    currentCooldown := r.currentCooldown, accuracy := r.accuracy)
    ensures e.baseSpeed <= r.speed <= 2.0 * e.baseSpeed
    ensures e.baseDamage <= r.currentDamage <= 2 * e.baseDamage
    ensures e.baseCooldown / 2.0 <= r.currentCooldown <= e.baseCooldown
    ensures MinAccuracyOffset <= r.accuracy <= MaxAccuracyOffset
    ensures r.accuracy == MaxAccuracyOffset * (2.0 - m)
    ensures m == 1.0 ==>
      r.speed == e.baseSpeed && r.currentDamage == e.baseDamage &&
      r.currentCooldown == e.baseCooldown && r.accuracy == MaxAccuracyOffset
  {
    var offset := MaxAccuracyOffset * (1.0 - (m - 1.0) / (2.0 - 1.0));
    var dmg := (e.baseDamage as real * m).Floor;
    assert e.baseDamage as real <= e.baseDamage as real * m <= 2.0 * e.baseDamage as real;
    CooldownBounds(e.baseCooldown, m);
    e.(speed := e.baseSpeed * m,
       currentDamage := dmg,
       currentCooldown := e.baseCooldown / m,
       accuracy := MaxReal(MinAccuracyOffset, MinReal(MaxAccuracyOffset, offset)))
  }

  lemma CooldownBounds(c: real, m: real)
    requires c > 0.0 && 1.0 <= m <= 2.0
    ensures c / 2.0 <= c / m <= c
  {
    var q := c / m;
    assert q * m == c;
    assert q > 0.0;
    assert q * (m - 1.0) >= 0.0;
    assert q * (2.0 - m) >= 0.0;
  }

  /** `Enemy.shoot`: a shot of the current damage once the current cooldown has strictly passed. */
  function EnemyShoot(e: Enemy, now: int): (r: (Enemy, Option<int>))
    ensures r.1.Some? <==> (now - e.lastShot) as real > e.currentCooldown
    ensures r.1.Some? ==> r.1.value == e.currentDamage && r.0 == e.(lastShot := now)
    ensures r.1.None? ==> r.0 == e
  {
    if (now - e.lastShot) as real > e.currentCooldown then (e.(lastShot := now), Some(e.currentDamage))
    else (e, None)
  }

  // ---------------------------------------------------------------------
  // The enemy base
  // ---------------------------------------------------------------------

  datatype EnemyBase = EnemyBase(pos: Point, size: int, health: int, maxHealth: int)

  function NewEnemyBase(pos: Point): (b: EnemyBase)
    ensures b.pos == pos && b.size == 200 && b.health == b.maxHealth == 1000
  {
    EnemyBase(pos, 200, 1000, 1000)
  }

  function BaseTakeDamage(b: EnemyBase, amount: int): (r: EnemyBase)
    ensures r == b.(health := DamagedInt(b.health, amount))
    ensures r.health <= 0 <==> amount >= b.health
  {
    b.(health := DamagedInt(b.health, amount))
  }

  /**
   * The base turrets' aiming error for a player at distance d from the base:
   * perfect at the base, growing linearly to 30 degrees at the proximity
   * radius and staying there beyond it.
   */
  function TurretOffset(d: real): (r: real)
    requires d >= 0.0
    ensures MinAccuracyOffset <= r <= MaxAccuracyOffset
    ensures d >= ProximityRadius ==> r == MaxAccuracyOffset
    ensures r == 0.0 <==> d == 0.0
    ensures d < ProximityRadius ==> r == 30.0 * d / ProximityRadius
  {
    var ratio := MinReal(1.0, d / ProximityRadius);
    MinAccuracyOffset + (MaxAccuracyOffset - MinAccuracyOffset) * ratio
  }
}
