// The player's ship in the complete version of the game (space_exp.py):
// progression (XP and levels), health, the material inventory, the loadout
// (weapons, engine, antenna, energy core), per-slot weapon cooldowns and the
// rotation part of the per-frame update.
//
// The Player is a class because the game updates its fields in place; the
// pure functions beside it are the specifications its methods are proved
// against, and the lemmas state what the game promises about them.

module SpaceExpPlayer {
  import opened Geometry
  import opened SpaceExpEntities

  // ---------------------------------------------------------------------
  // Equipment tables
  // ---------------------------------------------------------------------

  datatype ProjectileKind = Bolt | Homing | Swarm

  datatype WeaponStats = WeaponStats(
    damage: int, speed: int, cooldown: int, kind: ProjectileKind,
    turnRate: int, count: int, spread: int)

  /** The weapon table; `None` for a name it does not list. */
  function WeaponData(name: string): Option<WeaponStats>
  {
    if name == "Laser" then Some(WeaponStats(20, 8, 250, Bolt, 0, 1, 0))
    else if name == "Homing Missile" then Some(WeaponStats(50, 6, 2000, Homing, 15, 1, 0))
    else if name == "Swarm Rocket" then Some(WeaponStats(35, 5, 4000, Swarm, 20, 7, 30))
    else None
  }

  datatype EngineStats = EngineStats(topSpeed: real, acceleration: real, gravityResistance: real)

  function EngineData(name: string): Option<EngineStats>
  {
    if name == "Standard Thruster" then Some(EngineStats(1.0, 1.0, 1.0))
    else if name == "Ion Engine" then Some(EngineStats(1.5, 0.7, 0.01))
    else if name == "Space Thruster" then Some(EngineStats(0.8, 1.3, 1.5))
    else if name == "Hyper Drive" then Some(EngineStats(5.0, 1.0, 2.0))
    else None
  }

  datatype AntennaStats = AntennaStats(rangeMultiplier: real, revealsStealth: bool)

  function AntennaData(name: string): Option<AntennaStats>
  {
    if name == "Basic Antenna" then Some(AntennaStats(1.0, false))
    else if name == "Standard Antenna" then Some(AntennaStats(1.5, false))
    else if name == "Advanced Antenna" then Some(AntennaStats(2.5, true))
    else None
  }

  /** A name a weapon slot may hold: a table entry or the empty slot. */
  predicate SlotName(name: string)
  {
    name == "None" || WeaponData(name).Some?
  }

  /** The two energy cores offered in the energy-core menu. */
  predicate CoreSetting(recharge: real, power: real)
  {
    (recharge == 1.0 && power == 1.0) || (recharge == 1.5 && power == 1.2)
  }

  // ---------------------------------------------------------------------
  // Progression
  // ---------------------------------------------------------------------

  const InitialXpThreshold: int := 500

  /** `int(threshold * 1.5)` for a positive integer threshold. */
  function NextThreshold(t: int): int
    requires t >= 1
  {
    (3 * t) / 2
  }

  datatype Progress = Progress(xp: int, level: int, threshold: int)

  /**
   * The level-up loop of `add_xp` as a function: while the XP reaches the
   * threshold, pay the threshold, gain a level and raise the threshold.
   */
  function LevelUp(p: Progress): (r: Progress)
    requires p.threshold >= 1
    ensures p.threshold <= r.threshold
    decreases p.xp
  {
    if p.xp >= p.threshold then
      LevelUp(Progress(p.xp - p.threshold, p.level + 1, NextThreshold(p.threshold)))
    else
      p
  }

  /**
   * What levelling leaves: XP below the threshold and never negative, a
   * threshold and a level that never fall, and no change at all exactly
   * when the XP was already below the threshold.
   */
  lemma {:induction false} LevelUpSettles(p: Progress)
    requires p.threshold >= 1
    ensures var r := LevelUp(p);
      r.xp < r.threshold &&
      (p.xp >= 0 ==> r.xp >= 0) && p.level <= r.level &&
      (r.level == p.level <==> p.xp < p.threshold) &&
      (r.level == p.level ==> r == p)
    decreases p.xp
  {
    if p.xp >= p.threshold {
      LevelUpSettles(Progress(p.xp - p.threshold, p.level + 1, NextThreshold(p.threshold)));
    }
  }

  /** The threshold after n level-ups starting from threshold t. */
  function ThresholdAfter(t: int, n: nat): (r: int)
    requires t >= 1
    ensures r >= t
    decreases n
  {
    if n == 0 then t else ThresholdAfter(NextThreshold(t), n - 1)
  }

  /** The XP paid for n level-ups starting from threshold t. */
  function XpSpent(t: int, n: nat): int
    requires t >= 1
    decreases n
  {
    if n == 0 then 0 else t + XpSpent(NextThreshold(t), n - 1)
  }

  /**
   * Carry-over: levelling loses no XP.  What remains plus the thresholds
   * paid for the levels gained is exactly the XP that was there, and the
   * threshold has been raised once per level gained.
   */
  lemma {:induction false} LevelUpCarriesOver(p: Progress)
    requires p.threshold >= 1
    ensures LevelUp(p).level - p.level >= 0
    ensures LevelUp(p).xp + XpSpent(p.threshold, LevelUp(p).level - p.level) == p.xp
    ensures LevelUp(p).threshold == ThresholdAfter(p.threshold, LevelUp(p).level - p.level)
    decreases p.xp
  {
    if p.xp >= p.threshold {
      LevelUpCarriesOver(Progress(p.xp - p.threshold, p.level + 1, NextThreshold(p.threshold)));
    }
  }

  /** Enough XP for one threshold but not for the next gives exactly one level. */
  lemma OneLevelAtATime(p: Progress)
    requires p.threshold >= 1
    requires p.threshold <= p.xp < p.threshold + NextThreshold(p.threshold)
    ensures LevelUp(p) == Progress(p.xp - p.threshold, p.level + 1, NextThreshold(p.threshold))
  {
    var q := Progress(p.xp - p.threshold, p.level + 1, NextThreshold(p.threshold));
    assert q.xp < q.threshold;
  }

  // ---------------------------------------------------------------------
  // Inventory
  // ---------------------------------------------------------------------

  datatype Stockpile = Stockpile(
    carbon: int, silicon: int, gold: int, rockyOre: int, crystal: int, shipParts: int)

  predicate NonNegative(s: Stockpile)
  {
    s.carbon >= 0 && s.silicon >= 0 && s.gold >= 0 && s.rockyOre >= 0 && s.crystal >= 0 && s.shipParts >= 0
  }

  /** The five material names `add_material` recognises. */
  predicate KnownMaterial(kind: string)
  {
    kind in ["Carbon", "Silicon", "Gold", "RockyOre", "GasGiantCrystal"]
  }

  /** How many of a named material the stockpile holds (0 for unknown names). */
  function Count(s: Stockpile, kind: string): int
  {
    if kind == "Carbon" then s.carbon
    else if kind == "Silicon" then s.silicon
    else if kind == "Gold" then s.gold
    else if kind == "RockyOre" then s.rockyOre
    else if kind == "GasGiantCrystal" then s.crystal
    else 0
  }

  /** `add_material`: credit the named material; an unknown name changes nothing. */
  function AddedMaterial(s: Stockpile, kind: string, amount: int): (r: Stockpile)
    ensures r.shipParts == s.shipParts
    ensures !KnownMaterial(kind) ==> r == s
  {
    if kind == "Carbon" then s.(carbon := s.carbon + amount)
    else if kind == "Silicon" then s.(silicon := s.silicon + amount)
    else if kind == "Gold" then s.(gold := s.gold + amount)
    else if kind == "RockyOre" then s.(rockyOre := s.rockyOre + amount)
    else if kind == "GasGiantCrystal" then s.(crystal := s.crystal + amount)
    else s
  }

  /** Crediting a material raises that material's count by the amount and leaves every other count alone. */
  lemma AddedMaterialCounts(s: Stockpile, kind: string, amount: int)
    ensures forall k :: KnownMaterial(k) ==>
      Count(AddedMaterial(s, kind, amount), k) == Count(s, k) + (if k == kind then amount else 0)
  {
  }

  const CrystalGold: int := 5
  const CrystalSilicon: int := 10
  const CrystalParts: int := 3

  predicate CanAffordCrystal(s: Stockpile)
  {
    s.gold >= CrystalGold && s.silicon >= CrystalSilicon && s.shipParts >= CrystalParts
  }

  /**
   * The trading-outpost exchange: 5 gold, 10 silicon and 3 ship parts for
   * one gas-giant crystal, and nothing at all when any of the three is short.
   */
  function TradeCrystal(s: Stockpile): (r: Option<Stockpile>)
    ensures r.Some? <==> CanAffordCrystal(s)
    ensures r.Some? ==> r.value == Stockpile(s.carbon, s.silicon - 10, s.gold - 5, s.rockyOre, s.crystal + 1, s.shipParts - 3)
    ensures r.Some? && NonNegative(s) ==> NonNegative(r.value)
  {
    if CanAffordCrystal(s) then
      Some(AddedMaterial(s.(gold := s.gold - CrystalGold, silicon := s.silicon - CrystalSilicon,
                            shipParts := s.shipParts - CrystalParts), "GasGiantCrystal", 1))
    else None
  }

  /** Successive trades from s: how many succeed before the first refusal. */
  function TradesPossible(s: Stockpile): nat
    decreases if s.gold > 0 then s.gold else 0
  {
    match TradeCrystal(s)
    case None => 0
    case Some(s') => 1 + TradesPossible(s')
  }

  /**
   * Repeated trading yields exactly as many crystals as the scarcest of the
   * three inputs allows.
   */
  lemma {:induction false} TradesPossibleIsScarcest(s: Stockpile)
    requires NonNegative(s)
    ensures TradesPossible(s) == MinInt(s.gold / 5, MinInt(s.silicon / 10, s.shipParts / 3))
    decreases s.gold
  {
    match TradeCrystal(s)
    case None =>
    case Some(s') =>
      TradesPossibleIsScarcest(s');
  }

  // ---------------------------------------------------------------------
  // Weapons
  // ---------------------------------------------------------------------

  /** One projectile leaving the ship (start position left out: it needs trigonometry). */
  datatype Shot = Shot(kind: ProjectileKind, angle: real, speed: int, damage: int, turnRate: int)

  datatype ShotResult = ShotResult(consumed: bool, shots: seq<Shot>)

  /** The strict cooldown test of `shoot`, with the energy core's power output. */
  predicate CooledDown(elapsed: int, cooldown: int, power: real)
    requires power > 0.0
  {
    elapsed as real > cooldown as real / power
  }

  /** The seven-rocket fan of the swarm launcher around the ship's heading. */
  function SwarmFan(w: WeaponStats, heading: real): (r: seq<Shot>)
    requires w.count == 7
    ensures |r| == 7
    ensures forall i :: 0 <= i < 7 ==>
      r[i].kind == Swarm && r[i].damage == w.damage && 0.0 <= r[i].angle < 360.0 &&
      r[i].angle == Wrap360(heading + ((i - 3) * w.spread) as real)
  {
    seq(7, i requires 0 <= i < 7 => Shot(Swarm, Wrap360(heading + ((i - 3) * w.spread) as real), w.speed, w.damage, w.turnRate))
  }

  /**
   * What `shoot` does with the weapon named in a slot, `elapsed` milliseconds
   * after that slot last fired: whether the slot's cooldown is consumed and
   * which projectiles leave the ship.
   */
  function FireWeapon(name: string, elapsed: int, power: real, heading: real, hasTarget: bool): (r: ShotResult)
    requires power > 0.0
    ensures r.consumed <==> WeaponData(name).Some? && CooledDown(elapsed, WeaponData(name).value.cooldown, power)
    ensures |r.shots| > 0 ==> r.consumed
    ensures r.consumed && WeaponData(name).value.kind == Bolt ==>
      r.shots == [Shot(Bolt, heading, 8, 20, 0)]
    ensures r.consumed && WeaponData(name).value.kind != Bolt ==>
      (|r.shots| > 0 <==> hasTarget)
    ensures r.consumed && WeaponData(name).value.kind == Homing && hasTarget ==>
      r.shots == [Shot(Homing, heading, 6, 50, 15)]
    ensures r.consumed && WeaponData(name).value.kind == Swarm && hasTarget ==>
      |r.shots| == 7 &&
      forall i :: 0 <= i < 7 ==> r.shots[i].angle == Wrap360(heading + ((i - 3) * 30) as real)
  {
    match WeaponData(name)
    case None => ShotResult(false, [])
    case Some(w) =>
      if !CooledDown(elapsed, w.cooldown, power) then ShotResult(false, [])
      else if w.kind == Bolt then ShotResult(true, [Shot(Bolt, heading, w.speed, w.damage, w.turnRate)])
      else if !hasTarget then ShotResult(true, [])
      else if w.kind == Homing then ShotResult(true, [Shot(Homing, heading, w.speed, w.damage, w.turnRate)])
      else ShotResult(true, SwarmFan(w, heading))
  }

  // ---------------------------------------------------------------------
  // Rotation
  // ---------------------------------------------------------------------

  const RotationSpeed: real := 3.0

  /** The signed shortest turn from `angle` to `target`, in [-180, 180). */
  function TurnGap(angle: real, target: real): (d: real)
    ensures -180.0 <= d < 180.0
  {
    Wrap360(target - angle + 180.0) - 180.0
  }

  /** One frame of alignment towards `target` during the jump-drive alignment phase. */
  function AlignStep(angle: real, target: real): real
  {
    var d := TurnGap(angle, target);
    if d > 1.0 then Wrap360(angle + RotationSpeed)
    else if d < -1.0 then Wrap360(angle - RotationSpeed)
    else target
  }

  /** Shifting by whole turns does not change a wrapped angle. */
  lemma Wrap360Shift(x: real, k: int)
    ensures Wrap360(x + 360.0 * k as real) == Wrap360(x)
  {
    var a := x + 360.0 * k as real;
    var fa := (a / 360.0).Floor;
    var fx := (x / 360.0).Floor;
    assert a / 360.0 == x / 360.0 + k as real;
    assert fa == fx + k;
  }

  /** A wrapped angle differs from the original by a whole number of turns. */
  lemma Wrap360Turns(x: real) returns (k: int)
    ensures Wrap360(x) == x + 360.0 * k as real
  {
    k := -(x / 360.0).Floor;
  }

  /**
   * Each alignment frame turns the ship 3 degrees towards the target: the
   * signed gap shrinks by exactly 3 degrees, in the direction of its sign,
   * and a gap within 1 degree is closed by snapping onto the target.
   */
  lemma {:induction false} AlignStepCloses(angle: real, target: real)
    requires 0.0 <= target < 360.0
    ensures var d := TurnGap(angle, target);
      TurnGap(AlignStep(angle, target), target) ==
        (if d > 1.0 then d - 3.0 else if d < -1.0 then d + 3.0 else 0.0)
  {
    var d := TurnGap(angle, target);
    var i := Wrap360Turns(target - angle + 180.0);
    if d > 1.0 || d < -1.0 {
      var s: real := if d > 1.0 then 1.0 else -1.0;
      var a' := Wrap360(angle + 3.0 * s);
      var j := Wrap360Turns(angle + 3.0 * s);
      assert a' == angle + 3.0 * s + 360.0 * j as real;
      assert target - a' + 180.0 == (d + 180.0 - 3.0 * s) + 360.0 * (-i - j) as real;
      Wrap360Shift(d + 180.0 - 3.0 * s, -i - j);
      assert 0.0 <= d + 180.0 - 3.0 * s < 360.0;
    } else {
      assert target - target + 180.0 == 180.0;
    }
  }

  // ---------------------------------------------------------------------
  // The player
  // ---------------------------------------------------------------------

  class Player {
    var x: real
    var y: real
    var angle: real
    var health: int
    var maxHealth: int
    var level: int
    var currentXp: int
    var xpThreshold: int
    var shipParts: int
    var carbon: int
    var silicon: int
    var gold: int
    var rockyOre: int
    var crystal: int
    var miningTool: string
    var rechargeRate: real
    var powerOutput: real
    var engine: string
    var topSpeed: real
    var acceleration: real
    var gravityResistance: real
    var antenna: string
    var radarRange: real
    var slot1: string
    var slot2: string
    var lastShot1: int
    var lastShot2: int

    /** What the game keeps true of the ship between frames. */
    ghost predicate Valid()
      reads this
    {
      Vitals() && Ranked() && Fitted()
    }

    ghost predicate Vitals()
      reads this`health, this`maxHealth
    {
      health >= 0 && maxHealth == 100
    }

    /** Level and XP as `add_xp` leaves them: the XP is below the threshold. */
    ghost predicate Ranked()
      reads this`level, this`xpThreshold, this`currentXp
    {
      level >= 1 && xpThreshold >= 1 && 0 <= currentXp < xpThreshold
    }

    /** The installed core, engine, antenna and weapons are ones the game offers. */
    ghost predicate Fitted()
      reads this`rechargeRate, this`powerOutput, this`engine, this`topSpeed, this`acceleration,
            this`gravityResistance, this`antenna, this`radarRange, this`slot1, this`slot2
    {
      CoreSetting(rechargeRate, powerOutput) &&
      EngineData(engine) == Some(EngineStats(topSpeed, acceleration, gravityResistance)) &&
      AntennaData(antenna).Some? && AntennaData(antenna).value.rangeMultiplier == radarRange &&
      SlotName(slot1) && SlotName(slot2)
    }

    /** The ship's level, XP and threshold as one value. */
    function Rank(): Progress
      reads this`currentXp, this`level, this`xpThreshold
    {
      Progress(currentXp, level, xpThreshold)
    }

    function Stock(): Stockpile
      reads this
    {
      Stockpile(carbon, silicon, gold, rockyOre, crystal, shipParts)
    }

    /** A fresh ship at the world origin, as `Player()` builds it. */
    constructor ()
      ensures Valid()
      ensures x == 0.0 && y == 0.0 && angle == 0.0
      ensures health == 100 && level == 1 && currentXp == 0 && xpThreshold == InitialXpThreshold
      ensures Stock() == Stockpile(0, 0, 0, 0, 0, 0)
      ensures miningTool == "Drill" && engine == "Standard Thruster" && antenna == "Basic Antenna"
      ensures slot1 == "Laser" && slot2 == "None" && lastShot1 == 0 && lastShot2 == 0
      ensures rechargeRate == 1.0 && powerOutput == 1.0
    {
      x, y, angle := 0.0, 0.0, 0.0;
      health, maxHealth := 100, 100;
      level, currentXp, xpThreshold := 1, 0, InitialXpThreshold;
      shipParts, carbon, silicon, gold, rockyOre, crystal := 0, 0, 0, 0, 0, 0;
      miningTool := "Drill";
      rechargeRate, powerOutput := 1.0, 1.0;
      engine := "Standard Thruster";
      topSpeed, acceleration, gravityResistance := 1.0, 1.0, 1.0;
      antenna := "Basic Antenna";
      radarRange := 1.0;
      slot1, slot2 := "Laser", "None";
      lastShot1, lastShot2 := 0, 0;
    }

    /** `take_damage`: health drops by the amount and never below zero. */
    method TakeDamage(amount: int)
      requires Valid()
      modifies this`health
      ensures Valid()
      ensures health == DamagedInt(old(health), amount)
    {
      health := health - amount;
      if health < 0 {
        health := 0;
      }
    }

    /** `add_xp`: credit XP, then level up as often as the XP allows. */
    method AddXp(amount: int)
      requires Valid() && amount >= 0
      modifies this`currentXp, this`level, this`xpThreshold
      ensures Valid()
      ensures Progress(currentXp, level, xpThreshold) ==
        LevelUp(Progress(old(currentXp) + amount, old(level), old(xpThreshold)))
      ensures level >= old(level) && xpThreshold >= old(xpThreshold)
    {
      currentXp := currentXp + amount;
      while currentXp >= xpThreshold
        invariant xpThreshold >= old(xpThreshold) && level >= old(level) && currentXp >= 0
        invariant LevelUp(Progress(currentXp, level, xpThreshold)) ==
          LevelUp(Progress(old(currentXp) + amount, old(level), old(xpThreshold)))
        decreases currentXp
      {
        currentXp := currentXp - xpThreshold;
        level := level + 1;
        xpThreshold := NextThreshold(xpThreshold);
      }
    }

    /** `add_ship_parts`. */
    method AddShipParts(amount: int)
      requires Valid()
      modifies this`shipParts
      ensures Valid()
      ensures Stock() == old(Stock()).(shipParts := old(shipParts) + amount)
    {
      shipParts := shipParts + amount;
    }

    /** `add_material`: one branch per known material, nothing for any other name. */
    method AddMaterial(kind: string, amount: int)
      requires Valid()
      modifies this`carbon, this`silicon, this`gold, this`rockyOre, this`crystal
      ensures Valid()
      ensures Stock() == AddedMaterial(old(Stock()), kind, amount)
    {
      if kind == "Carbon" {
        carbon := carbon + amount;
      } else if kind == "Silicon" {
        silicon := silicon + amount;
      } else if kind == "Gold" {
        gold := gold + amount;
      } else if kind == "RockyOre" {
        rockyOre := rockyOre + amount;
      } else if kind == "GasGiantCrystal" {
        crystal := crystal + amount;
      }
    }

    /** The trade-crystal button of the trading-outpost menu. */
    method TradeForCrystal() returns (traded: bool)
      requires Valid()
      modifies this`gold, this`silicon, this`shipParts, this`carbon, this`rockyOre, this`crystal
      ensures Valid()
      ensures traded <==> CanAffordCrystal(old(Stock()))
      ensures traded ==> Stock() == TradeCrystal(old(Stock())).value
      ensures !traded ==> Stock() == old(Stock())
    {
      if gold >= CrystalGold && silicon >= CrystalSilicon && shipParts >= CrystalParts {
        gold := gold - CrystalGold;
        silicon := silicon - CrystalSilicon;
        shipParts := shipParts - CrystalParts;
        AddMaterial("GasGiantCrystal", 1);
        traded := true;
      } else {
        traded := false;
      }
    }

    /** `set_engine`: a listed engine replaces all three multipliers; any other name changes nothing. */
    method SetEngine(name: string)
      requires Valid()
      modifies this`engine, this`topSpeed, this`acceleration, this`gravityResistance
      ensures Valid()
      ensures EngineData(name).Some? ==> engine == name
      ensures EngineData(name).None? ==>
        engine == old(engine) && topSpeed == old(topSpeed) &&
        acceleration == old(acceleration) && gravityResistance == old(gravityResistance)
    {
      match EngineData(name)
      case Some(e) =>
        engine := name;
        topSpeed, acceleration, gravityResistance := e.topSpeed, e.acceleration, e.gravityResistance;
      case None =>
    }

    /** `set_antenna`: a listed antenna sets the radar range; any other name changes nothing. */
    method SetAntenna(name: string)
      requires Valid()
      modifies this`antenna, this`radarRange
      ensures Valid()
      ensures AntennaData(name).Some? ==> antenna == name
      ensures AntennaData(name).None? ==> antenna == old(antenna) && radarRange == old(radarRange)
    {
      match AntennaData(name)
      case Some(a) =>
        antenna := name;
        radarRange := a.rangeMultiplier;
      case None =>
    }

    /** `set_weapon`: only a known weapon (or "None") into slot 1 or 2 changes anything. */
    method SetWeapon(name: string, slot: int)
      requires Valid()
      modifies this`slot1, this`slot2
      ensures Valid()
      ensures SlotName(name) && slot == 1 ==> slot1 == name && slot2 == old(slot2)
      ensures SlotName(name) && slot == 2 ==> slot2 == name && slot1 == old(slot1)
      ensures !SlotName(name) || (slot != 1 && slot != 2) ==>
        slot1 == old(slot1) && slot2 == old(slot2)
    {
      if SlotName(name) {
        if slot == 1 {
          slot1 := name;
        } else if slot == 2 {
          slot2 := name;
        }
      }
    }

    /** The energy-core menu: the standard core or the advanced one. */
    method InstallCore(advanced: bool)
      requires Valid()
      modifies this`rechargeRate, this`powerOutput
      ensures Valid()
      ensures advanced ==> rechargeRate == 1.5 && powerOutput == 1.2
      ensures !advanced ==> rechargeRate == 1.0 && powerOutput == 1.0
    {
      if advanced {
        rechargeRate, powerOutput := 1.5, 1.2;
      } else {
        rechargeRate, powerOutput := 1.0, 1.0;
      }
    }

    /**
     * `shoot`: fire the weapon in the given slot if its own cooldown (shortened
     * by the power output) has strictly passed.  Only that slot's timestamp
     * changes; a homing or swarm weapon without a target still uses it up.
     */
    method Shoot(now: int, slot: int, hasTarget: bool) returns (shots: seq<Shot>)
      requires Valid()
      modifies this`lastShot1, this`lastShot2
      ensures Valid()
      ensures slot != 1 && slot != 2 ==>
        shots == [] && lastShot1 == old(lastShot1) && lastShot2 == old(lastShot2)
      ensures slot == 1 ==>
        var r := FireWeapon(slot1, now - old(lastShot1), powerOutput, angle, hasTarget);
        shots == r.shots && lastShot2 == old(lastShot2) &&
        lastShot1 == (if r.consumed then now else old(lastShot1))
      ensures slot == 2 ==>
        var r := FireWeapon(slot2, now - old(lastShot2), powerOutput, angle, hasTarget);
        shots == r.shots && lastShot1 == old(lastShot1) &&
        lastShot2 == (if r.consumed then now else old(lastShot2))
    {
      if slot != 1 && slot != 2 {
        return [];
      }
      var name := if slot == 1 then slot1 else slot2;
      var last := if slot == 1 then lastShot1 else lastShot2;
      var r := FireWeapon(name, now - last, powerOutput, angle, hasTarget);
      if r.consumed {
        if slot == 1 {
          lastShot1 := now;
        } else {
          lastShot2 := now;
        }
      }
      shots := r.shots;
    }

    /** Manual rotation: 'a' turns left, 'd' turns right, then the angle wraps. */
    method Rotate(left: bool, right: bool)
      requires Valid()
      modifies this`angle
      ensures Valid()
      ensures 0.0 <= angle < 360.0
      ensures angle == Wrap360(old(angle) + (if left then RotationSpeed else 0.0) - (if right then RotationSpeed else 0.0))
    {
      var a := angle;
      if left {
        a := a + RotationSpeed;
      }
      if right {
        a := a - RotationSpeed;
      }
      angle := Wrap360(a);
    }

    /** The alignment branch of `update` while the jump drive aligns the ship. */
    method Align(target: real)
      requires Valid()
      modifies this`angle
      ensures Valid()
      ensures angle == AlignStep(old(angle), target)
    {
      var d := TurnGap(angle, target);
      if d > 1.0 || d < -1.0 {
        angle := Wrap360(angle + RotationSpeed * (if d > 0.0 then 1.0 else -1.0));
      } else {
        angle := target;
      }
    }
  }
}
