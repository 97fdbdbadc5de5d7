// Mining in space_exp.py: the auto-mining laser's target selection (filter,
// sort by distance, take three), its charge meter and per-frame target
// pass, the drill and the two hand-aimed lasers, and the drops a mined-out
// asteroid leaves.  Collision geometry (`collide_rect`) and random rolls
// are inputs.

module SpaceExpMining {
  import opened Geometry
  import opened SpaceExpEntities
  import opened SpaceExpWorld
  import opened SpaceExpCulling
  import opened SpaceExpPlayer

  const AutoMineRange: real := 400.0
  const AutoMineTargetCount: int := 3
  const AutoMineMaxCharge: real := 100.0
  const ChargeDecrease: real := 0.5
  const ChargeRefill: real := 0.2
  const MiningDamagePerTick: real := 1.0
  const ShortRangeLaserRange: real := 150.0
  const LongRangeLaserRange: real := 600.0
  const RockyOreChance: real := 0.3
  const RockyOreAmount: int := 1
  const NearPlanetDistance: real := 200.0

  // ---------------------------------------------------------------------
  // Auto-mining target selection
  // ---------------------------------------------------------------------

  /** An asteroid the auto-miner may target: shown, within 400 of the player (inclusive) and on screen. */
  predicate Eligible(a: Asteroid, player: Point, camera: Point, zoomActive: bool)
  {
    Shown(a) && WithinOrOn(player, a.pos, AutoMineRange) && IsVisibleOnScreen(a.pos, a.size as real, camera, zoomActive)
  }

  predicate SortedBy<T>(s: seq<T>, key: T -> real)
  {
    forall i, j :: 0 <= i < j < |s| ==> key(s[i]) <= key(s[j])
  }

  /** Insert x before the first element with a strictly larger key (after any with the same key). */
  function InsertBy<T>(x: T, s: seq<T>, key: T -> real): seq<T>
  {
    if s == [] then [x]
    else if key(x) < key(s[0]) then [x] + s
    else [s[0]] + InsertBy(x, s[1..], key)
  }

  /** Python's stable `list.sort(key=...)`, as an insertion sort. */
  function SortBy<T>(xs: seq<T>, key: T -> real): seq<T>
    decreases |xs|
  {
    if xs == [] then [] else InsertBy(xs[|xs| - 1], SortBy(xs[..|xs| - 1], key), key)
  }

  lemma {:induction false} InsertByMultiset<T>(x: T, s: seq<T>, key: T -> real)
    ensures multiset(InsertBy(x, s, key)) == multiset(s) + multiset{x}
  {
    if s != [] && key(x) >= key(s[0]) {
      InsertByMultiset(x, s[1..], key);
      assert s == [s[0]] + s[1..];
    }
  }

  /** Inserting an element no smaller than v into elements no smaller than v keeps them all no smaller than v. */
  lemma {:induction false} InsertByAtLeast<T>(x: T, s: seq<T>, key: T -> real, v: real)
    requires key(x) >= v && forall i :: 0 <= i < |s| ==> key(s[i]) >= v
    ensures forall i :: 0 <= i < |InsertBy(x, s, key)| ==> key(InsertBy(x, s, key)[i]) >= v
  {
    if s != [] && key(x) >= key(s[0]) {
      InsertByAtLeast(x, s[1..], key, v);
    }
  }

  lemma {:induction false} InsertBySorted<T>(x: T, s: seq<T>, key: T -> real)
    requires SortedBy(s, key)
    ensures SortedBy(InsertBy(x, s, key), key)
  {
    if s != [] && key(x) >= key(s[0]) {
      var rest := InsertBy(x, s[1..], key);
      InsertBySorted(x, s[1..], key);
      InsertByAtLeast(x, s[1..], key, key(s[0]));
      var r := [s[0]] + rest;
      assert forall i :: 1 <= i < |r| ==> r[i] == rest[i - 1];
    }
  }

  /** The sort orders the elements by key and keeps every one of them. */
  lemma {:induction false} SortBySound<T>(xs: seq<T>, key: T -> real)
    ensures multiset(SortBy(xs, key)) == multiset(xs)
    ensures SortedBy(SortBy(xs, key), key)
    decreases |xs|
  {
    if xs != [] {
      var init := xs[..|xs| - 1];
      SortBySound(init, key);
      InsertByMultiset(xs[|xs| - 1], SortBy(init, key), key);
      InsertBySorted(xs[|xs| - 1], SortBy(init, key), key);
      assert xs == init + [xs[|xs| - 1]];
    }
  }

  /** The sort key of the targeting: the (squared) distance from the player. */
  function DistFrom(p: Point): Asteroid -> real
  {
    (a: Asteroid) => Dist2(p, a.pos)
  }

  /** What `start_auto_mine_targeting` selects: the nearest three eligible asteroids, nearest first. */
  function AutoMineTargets(asteroids: seq<Asteroid>, player: Point, camera: Point, zoomActive: bool): seq<Asteroid>
  {
    var sorted := SortBy(Filter(asteroids, (a: Asteroid) => Eligible(a, player, camera, zoomActive)), DistFrom(player));
    sorted[..MinInt(AutoMineTargetCount, |sorted|)]
  }

  /**
   * Taking the first n of a sorted copy: every element taken comes from the
   * input, and an element left out means n were taken, none with a larger key.
   */
  lemma {:induction false} TakeSmallest<T>(xs: seq<T>, key: T -> real, n: nat)
    ensures var sorted := SortBy(xs, key);
      var t := sorted[..MinInt(n, |sorted|)];
      |t| <= n && SortedBy(t, key) &&
      (forall a :: a in t ==> a in xs) &&
      (forall a :: a in xs && a !in t ==> |t| == n && forall b :: b in t ==> key(b) <= key(a))
  {
    var sorted := SortBy(xs, key);
    SortBySound(xs, key);
    var k := MinInt(n, |sorted|);
    var t := sorted[..k];
    forall a | a in t
      ensures a in xs
    {
      assert a in multiset(sorted);
    }
    forall a | a in xs && a !in t
      ensures |t| == n && forall b :: b in t ==> key(b) <= key(a)
    {
      assert a in multiset(sorted);
      var j :| 0 <= j < |sorted| && sorted[j] == a;
      assert j >= k;
      forall b | b in t
        ensures key(b) <= key(a)
      {
        var i :| 0 <= i < k && t[i] == b;
      }
    }
  }

  /**
   * At most three targets, each an eligible asteroid, nearest first; an
   * eligible asteroid left out means three were chosen and none of them is
   * farther than it.
   */
  lemma AutoMineTargetsSound(asteroids: seq<Asteroid>, player: Point, camera: Point, zoomActive: bool)
    ensures var t := AutoMineTargets(asteroids, player, camera, zoomActive);
      |t| <= AutoMineTargetCount &&
      (forall a :: a in t ==> a in asteroids && Eligible(a, player, camera, zoomActive)) &&
      SortedBy(t, DistFrom(player)) &&
      (forall a :: a in asteroids && Eligible(a, player, camera, zoomActive) && a !in t ==>
        |t| == AutoMineTargetCount && forall b :: b in t ==> Dist2(player, b.pos) <= Dist2(player, a.pos))
  {
    var keep := (a: Asteroid) => Eligible(a, player, camera, zoomActive);
    FilterMembers(asteroids, keep);
    TakeSmallest(Filter(asteroids, keep), DistFrom(player), AutoMineTargetCount);
  }

  /**
   * `start_auto_mine_targeting`: collect the eligible asteroids in a loop,
   * sort them by distance and keep the first three.
   */
  method StartAutoMineTargeting(asteroids: seq<Asteroid>, player: Point, camera: Point, zoomActive: bool)
    returns (targets: seq<Asteroid>)
    ensures targets == AutoMineTargets(asteroids, player, camera, zoomActive)
    ensures |targets| <= AutoMineTargetCount
    ensures forall a :: a in targets ==> a in asteroids && Eligible(a, player, camera, zoomActive)
    ensures SortedBy(targets, DistFrom(player))
    ensures forall a :: a in asteroids && Eligible(a, player, camera, zoomActive) && a !in targets ==>
      |targets| == AutoMineTargetCount && forall b :: b in targets ==> Dist2(player, b.pos) <= Dist2(player, a.pos)
  {
    var potential := Cull(asteroids, (a: Asteroid) => Eligible(a, player, camera, zoomActive));
    var sorted := SortBy(potential, DistFrom(player));
    targets := sorted[..MinInt(AutoMineTargetCount, |sorted|)];
    AutoMineTargetsSound(asteroids, player, camera, zoomActive);
  }

  // ---------------------------------------------------------------------
  // What a mined-out asteroid leaves behind
  // ---------------------------------------------------------------------

  datatype Planet = Planet(pos: Point, size: int, rocky: bool)

  /** Within the planet's size plus 200 of some rocky planet. */
  predicate NearRockyPlanet(a: Asteroid, planets: seq<Planet>)
  {
    exists i :: 0 <= i < |planets| && planets[i].rocky &&
      Within(a.pos, planets[i].pos, planets[i].size as real + NearPlanetDistance)
  }

  /**
   * Where Rocky Ore appears.  The drill drops it at the asteroid; both lasers
   * and the auto-miner drop it at (x, x), so it lands on the asteroid only
   * when x == y.
   */
  function RockyOreSpot(a: Asteroid, tool: string): (p: Point)
    ensures p.x == a.pos.x
    ensures p == a.pos <==> tool == "Drill" || a.pos.x == a.pos.y
  {
    if tool == "Drill" then a.pos else Point(a.pos.x, a.pos.x)
  }

  /** The laser's Rocky Ore can land far from the asteroid that was mined. */
  lemma RockyOreMisplaced()
    ensures var a := NewAsteroid(Point(0.0, 1000.0), 50, false, None);
      !Within(RockyOreSpot(a, "ShortRangeLaser"), a.pos, 900.0) &&
      Within(RockyOreSpot(a, "Drill"), a.pos, 1.0)
  {
  }

  /**
   * The drops of an asteroid whose health reached zero: Rocky Ore (one unit)
   * when it is near a rocky planet and the ore roll is below 0.3, then the
   * regular drop-table material at the asteroid when the table yields one.
   */
  function Drops(a: Asteroid, tool: string, planets: seq<Planet>, oreRoll: real, dropRoll: real): (r: seq<MaterialDrop>)
    ensures var ore := NearRockyPlanet(a, planets) && oreRoll < RockyOreChance;
      |r| == (if ore then 1 else 0) + (if dropRoll < 1.0 then 1 else 0) &&
      (ore ==> r[0] == MaterialDrop(RockyOreSpot(a, tool), "RockyOre", RockyOreAmount))
    ensures dropRoll < 1.0 ==>
      var last := r[|r| - 1];
      last.pos == a.pos && last.amount == 1 &&
      (last.kind == "Carbon" <==> dropRoll < 0.70) &&
      (last.kind == "Silicon" <==> 0.70 <= dropRoll < 0.95) &&
      (last.kind == "Gold" <==> 0.95 <= dropRoll)
  {
    (if NearRockyPlanet(a, planets) && oreRoll < RockyOreChance
     then [MaterialDrop(RockyOreSpot(a, tool), "RockyOre", RockyOreAmount)] else []) +
    (match MaterialFor(dropRoll)
     case None => []
     case Some(kind) => [MaterialDrop(a.pos, kind, 1)])
  }

  /** The drop code as the game runs it: a search over the planets, then the drop table. */
  method KillDrops(a: Asteroid, tool: string, planets: seq<Planet>, oreRoll: real, dropRoll: real)
    returns (drops: seq<MaterialDrop>)
    ensures drops == Drops(a, tool, planets, oreRoll, dropRoll)
  {
    drops := [];
    var near := false;
    var i := 0;
    while i < |planets| && !near
      invariant 0 <= i <= |planets|
      invariant near <==> exists j :: (0 <= j < i && planets[j].rocky &&
        Within(a.pos, planets[j].pos, planets[j].size as real + NearPlanetDistance))
    {
      if planets[i].rocky && Within(a.pos, planets[i].pos, planets[i].size as real + NearPlanetDistance) {
        near := true;
      }
      i := i + 1;
    }
    if near && oreRoll < RockyOreChance {
      drops := drops + [MaterialDrop(RockyOreSpot(a, tool), "RockyOre", RockyOreAmount)];
    }
    var kind, amount := GetMaterialDrop(dropRoll);
    if kind.Some? {
      drops := drops + [MaterialDrop(a.pos, kind.value, amount)];
    }
  }

  // ---------------------------------------------------------------------
  // Drill and hand-aimed lasers
  // ---------------------------------------------------------------------

  /** The first k asteroids after a mining pass: hit ones take the damage and vanish at zero health. */
  function Mined(asteroids: seq<Asteroid>, hits: seq<bool>, amount: real, k: nat): seq<Asteroid>
    requires k <= |asteroids| == |hits|
    decreases k
  {
    if k == 0 then [] else
      var prev := Mined(asteroids, hits, amount, k - 1);
      if !hits[k - 1] then prev + [asteroids[k - 1]]
      else
        var d := AsteroidTakeDamage(asteroids[k - 1], amount);
        if d.health <= 0.0 then prev else prev + [d]
  }

  /** The drops of the first k asteroids after a mining pass: those of each one it mined out, in order. */
  function MinedDrops(asteroids: seq<Asteroid>, hits: seq<bool>, amount: real, tool: string, planets: seq<Planet>,
                      oreRolls: seq<real>, dropRolls: seq<real>, k: nat): (r: seq<MaterialDrop>)
    requires k <= |asteroids| == |hits| == |oreRolls| == |dropRolls|
    ensures |r| <= 2 * (k - |Mined(asteroids, hits, amount, k)|)
    decreases k
  {
    if k == 0 then [] else
      var prev := MinedDrops(asteroids, hits, amount, tool, planets, oreRolls, dropRolls, k - 1);
      var d := AsteroidTakeDamage(asteroids[k - 1], amount);
      if hits[k - 1] && d.health <= 0.0 then prev + Drops(d, tool, planets, oreRolls[k - 1], dropRolls[k - 1])
      else prev
  }

  /**
   * A mining pass never adds asteroids, leaves every asteroid it did not hit
   * in place, keeps a hit asteroid (damaged) exactly when it had more health
   * than the damage, and everything it keeps comes from the input.
   */
  lemma {:induction false} MinedSound(asteroids: seq<Asteroid>, hits: seq<bool>, amount: real, k: nat)
    requires k <= |asteroids| == |hits|
    ensures var m := Mined(asteroids, hits, amount, k);
      |m| <= k &&
      (forall i :: 0 <= i < k && !hits[i] ==> asteroids[i] in m) &&
      (forall i :: 0 <= i < k && hits[i] && asteroids[i].health > amount ==>
        AsteroidTakeDamage(asteroids[i], amount) in m) &&
      (forall x :: x in m ==> exists i :: (0 <= i < k &&
        if hits[i] then x == AsteroidTakeDamage(asteroids[i], amount) && x.health > 0.0 else x == asteroids[i]))
    decreases k
  {
    if k > 0 {
      MinedSound(asteroids, hits, amount, k - 1);
    }
  }

  /**
   * The pass the drill and the lasers share: each hit asteroid takes one
   * tick of damage scaled by the power output, and one whose health reaches
   * zero leaves its drops and is removed.  `oreRolls[i]` and `dropRolls[i]`
   * are the rolls asteroid i would use.
   */
  method ToolPass(asteroids: seq<Asteroid>, hits: seq<bool>, power: real, tool: string, planets: seq<Planet>,
                  oreRolls: seq<real>, dropRolls: seq<real>)
    returns (remaining: seq<Asteroid>, drops: seq<MaterialDrop>)
    requires |hits| == |oreRolls| == |dropRolls| == |asteroids|
    ensures remaining == Mined(asteroids, hits, MiningDamagePerTick * power, |asteroids|)
    ensures drops == MinedDrops(asteroids, hits, MiningDamagePerTick * power, tool, planets, oreRolls, dropRolls, |asteroids|)
    ensures |remaining| <= |asteroids|
    ensures |drops| <= 2 * (|asteroids| - |remaining|)
  {
    var amount := MiningDamagePerTick * power;
    remaining, drops := [], [];
    var i := 0;
    while i < |asteroids|
      invariant 0 <= i <= |asteroids|
      invariant remaining == Mined(asteroids, hits, amount, i)
      invariant drops == MinedDrops(asteroids, hits, amount, tool, planets, oreRolls, dropRolls, i)
    {
      if !hits[i] {
        remaining := remaining + [asteroids[i]];
      } else {
        var d := AsteroidTakeDamage(asteroids[i], amount);
        if d.health <= 0.0 {
          var left := KillDrops(d, tool, planets, oreRolls[i], dropRolls[i]);
          drops := drops + left;
        } else {
          remaining := remaining + [d];
        }
      }
      i := i + 1;
    }
  }

  /** What the laser beam touches: shown asteroids whose centre is closer to the cursor than their size. */
  function LaserHits(asteroids: seq<Asteroid>, cursor: Point): (hits: seq<bool>)
    ensures |hits| == |asteroids|
    ensures forall i :: 0 <= i < |hits| ==>
      (hits[i] <==> Shown(asteroids[i]) && Within(cursor, asteroids[i].pos, asteroids[i].size as real))
  {
    if asteroids == [] then [] else
      [Shown(asteroids[0]) && Within(cursor, asteroids[0].pos, asteroids[0].size as real)] +
      LaserHits(asteroids[1..], cursor)
  }

  function LaserRange(tool: string): real
  {
    if tool == "ShortRangeLaser" then ShortRangeLaserRange else LongRangeLaserRange
  }

  // ---------------------------------------------------------------------
  // The mining rig: the F key, the charge meter and the target pass
  // ---------------------------------------------------------------------

  /** The group with every asteroid equal to t taken out. */
  function Without(s: seq<Asteroid>, t: Asteroid): (r: seq<Asteroid>)
    ensures |r| <= |s|
    ensures forall a :: a in r <==> a in s && a != t
  {
    FilterMembers(s, (a: Asteroid) => a != t);
    Filter(s, (a: Asteroid) => a != t)
  }

  /** Every occurrence of x in s replaced by y: the damaged asteroid takes its own place. */
  function ReplaceAll(s: seq<Asteroid>, x: Asteroid, y: Asteroid): seq<Asteroid>
  {
    if s == [] then [] else [if s[0] == x then y else s[0]] + ReplaceAll(s[1..], x, y)
  }

  /** Replacing keeps the length, keeps every other asteroid and brings in nothing but y. */
  lemma {:induction false} ReplaceAllMembers(s: seq<Asteroid>, x: Asteroid, y: Asteroid)
    ensures |ReplaceAll(s, x, y)| == |s|
    ensures forall a :: a in ReplaceAll(s, x, y) ==> a in s || a == y
    ensures forall a :: a in s && a != x ==> a in ReplaceAll(s, x, y)
  {
    if s != [] {
      ReplaceAllMembers(s[1..], x, y);
      assert s == [s[0]] + s[1..];
    }
  }

  /** A target the auto-miner may still work on: shown, still in the world and on screen. */
  predicate StillMineable(t: Asteroid, asteroids: seq<Asteroid>, camera: Point, zoomActive: bool)
  {
    Shown(t) && t in asteroids && IsVisibleOnScreen(t.pos, t.size as real, camera, zoomActive)
  }

  /**
   * The world, the kept targets and the drops after the auto-miner has
   * worked through its first k targets: a target that is still mineable
   * takes a tick of damage in place, and leaves the world with its drops
   * once mined out, or stays targeted; any other target is dropped.
   */
  function Targeted(asteroids: seq<Asteroid>, targets: seq<Asteroid>, amount: real, camera: Point, zoomActive: bool,
                    planets: seq<Planet>, oreRolls: seq<real>, dropRolls: seq<real>, k: nat)
    : (seq<Asteroid>, seq<Asteroid>, seq<MaterialDrop>)
    requires k <= |targets| == |oreRolls| == |dropRolls|
    decreases k
  {
    if k == 0 then (asteroids, [], []) else
      var prev := Targeted(asteroids, targets, amount, camera, zoomActive, planets, oreRolls, dropRolls, k - 1);
      var t := targets[k - 1];
      if !StillMineable(t, prev.0, camera, zoomActive) then prev
      else
        var d := AsteroidTakeDamage(t, amount);
        if d.health <= 0.0 then
          (Without(prev.0, t), prev.1, prev.2 + Drops(d, "AutoMiningLaser", planets, oreRolls[k - 1], dropRolls[k - 1]))
        else (ReplaceAll(prev.0, t, d), prev.1 + [d], prev.2)
  }

  /**
   * The target pass never grows the world, keeps at most one target per
   * target and leaves at most two drops per target; an asteroid that was
   * not targeted stays in the world; every kept target is a damaged,
   * shown, on-screen target with health left; and the world holds nothing
   * but its old asteroids and damaged targets.
   */
  lemma {:induction false} TargetedSound(asteroids: seq<Asteroid>, targets: seq<Asteroid>, amount: real, camera: Point,
                                         zoomActive: bool, planets: seq<Planet>, oreRolls: seq<real>,
                                         dropRolls: seq<real>, k: nat)
    requires k <= |targets| == |oreRolls| == |dropRolls|
    ensures var r := Targeted(asteroids, targets, amount, camera, zoomActive, planets, oreRolls, dropRolls, k);
      |r.0| <= |asteroids| && |r.1| <= k && |r.2| <= 2 * k &&
      (forall a :: a in asteroids && (forall j :: 0 <= j < k ==> targets[j] != a) ==> a in r.0) &&
      (forall t :: t in r.1 ==>
        t.health > 0.0 &&
        exists j :: 0 <= j < k && t == AsteroidTakeDamage(targets[j], amount) && Shown(targets[j]) &&
          IsVisibleOnScreen(targets[j].pos, targets[j].size as real, camera, zoomActive)) &&
      (forall a :: a in r.0 ==> a in asteroids || exists j :: 0 <= j < k && a == AsteroidTakeDamage(targets[j], amount))
    decreases k
  {
    if k > 0 {
      TargetedSound(asteroids, targets, amount, camera, zoomActive, planets, oreRolls, dropRolls, k - 1);
      var prev := Targeted(asteroids, targets, amount, camera, zoomActive, planets, oreRolls, dropRolls, k - 1);
      var t := targets[k - 1];
      if StillMineable(t, prev.0, camera, zoomActive) {
        var d := AsteroidTakeDamage(t, amount);
        if d.health > 0.0 {
          ReplaceAllMembers(prev.0, t, d);
        }
      }
    }
  }

  /**
   * The auto-miner's target pass: each target that is still shown, still in
   * the world and on screen takes a tick of damage; a mined-out one leaves
   * its drops and is removed, a damaged one stays targeted, and the others
   * are dropped from the target list.  An asteroid is identified by its
   * record.
   */
  method TargetPass(asteroids: seq<Asteroid>, targets: seq<Asteroid>, amount: real, camera: Point,
                    zoomActive: bool, planets: seq<Planet>, oreRolls: seq<real>, dropRolls: seq<real>)
    returns (remaining: seq<Asteroid>, kept: seq<Asteroid>, drops: seq<MaterialDrop>)
    requires |oreRolls| == |dropRolls| == |targets|
    ensures (remaining, kept, drops) ==
      Targeted(asteroids, targets, amount, camera, zoomActive, planets, oreRolls, dropRolls, |targets|)
    ensures |remaining| <= |asteroids| && |kept| <= |targets| && |drops| <= 2 * |targets|
    ensures forall t :: t in kept ==>
      t.health > 0.0 && exists j :: 0 <= j < |targets| && t == AsteroidTakeDamage(targets[j], amount)
    ensures forall a :: a in remaining ==>
      a in asteroids || exists j :: 0 <= j < |targets| && a == AsteroidTakeDamage(targets[j], amount)
  {
    remaining, kept, drops := asteroids, [], [];
    var i := 0;
    while i < |targets|
      invariant 0 <= i <= |targets|
      invariant (remaining, kept, drops) ==
        Targeted(asteroids, targets, amount, camera, zoomActive, planets, oreRolls, dropRolls, i)
    {
      var t := targets[i];
      if Shown(t) && t in remaining && IsVisibleOnScreen(t.pos, t.size as real, camera, zoomActive) {
        var d := AsteroidTakeDamage(t, amount);
        if d.health <= 0.0 {
          var left := KillDrops(d, "AutoMiningLaser", planets, oreRolls[i], dropRolls[i]);
          drops := drops + left;
          remaining := Without(remaining, t);
        } else {
          remaining := ReplaceAll(remaining, t, d);
          kept := kept + [d];
        }
      }
      i := i + 1;
    }
    TargetedSound(asteroids, targets, amount, camera, zoomActive, planets, oreRolls, dropRolls, |targets|);
  }

  /**
   * The mining state of the game manager: whether the hand tool's beam is
   * held, whether the auto-miner runs, its charge and its current targets.
   */
  class MiningRig {
    var laserHeld: bool
    var autoActive: bool
    var charge: real
    var targets: seq<Asteroid>

    /**
     * The charge stays in [0, 100]; the auto-miner runs only with charge
     * left and at least one (and at most three) targets, and has no targets
     * while it is off.
     */
    ghost predicate Valid()
      reads this
    {
      0.0 <= charge <= AutoMineMaxCharge &&
      (!autoActive ==> targets == []) &&
      (autoActive ==> charge > 0.0 && 0 < |targets| <= AutoMineTargetCount)
    }

    constructor ()
      ensures Valid() && !laserHeld && !autoActive && charge == AutoMineMaxCharge && targets == []
    {
      laserHeld, autoActive, charge, targets := false, false, AutoMineMaxCharge, [];
    }

    /** Holding F with the drill or a laser keeps its beam on; releasing it turns the beam off. */
    method HoldBeam(held: bool)
      modifies this`laserHeld
      ensures laserHeld == held
    {
      laserHeld := held;
    }

    /**
     * F pressed with the auto-miner equipped: a running auto-miner stops and
     * forgets its targets; a stopped one with charge picks its targets and
     * keeps running only if it found any; without charge nothing happens.
     */
    method ToggleAutoMine(asteroids: seq<Asteroid>, player: Point, camera: Point, zoomActive: bool)
      requires Valid()
      modifies this`autoActive, this`targets
      ensures Valid()
      ensures old(autoActive) ==> !autoActive && targets == []
      ensures !old(autoActive) && charge > 0.0 ==>
        targets == AutoMineTargets(asteroids, player, camera, zoomActive) && (autoActive <==> targets != [])
      ensures !old(autoActive) && charge <= 0.0 ==> !autoActive && targets == []
    {
      if autoActive {
        autoActive := false;
        targets := [];
      } else if charge > 0.0 {
        autoActive := true;
        targets := StartAutoMineTargeting(asteroids, player, camera, zoomActive);
        if targets == [] {
          autoActive := false;
        }
      }
    }

    /** Choosing a mining tool other than the auto-miner in the station menu stops the auto-miner. */
    method SelectTool(p: Player, tool: string)
      requires Valid()
      modifies p`miningTool, this`autoActive, this`targets
      ensures Valid() && p.miningTool == tool
      ensures tool != "AutoMiningLaser" ==> !autoActive && targets == []
      ensures tool == "AutoMiningLaser" ==> autoActive == old(autoActive) && targets == old(targets)
    {
      p.miningTool := tool;
      if tool != "AutoMiningLaser" && autoActive {
        autoActive := false;
        targets := [];
      }
    }

    /**
     * The auto-miner's frame: while running, the charge drops by 0.5 times
     * the power output (never below zero) and at zero the miner stops;
     * otherwise the targets are mined and, once none is left, replaced by a
     * fresh selection, and the miner stops if there is none.  While stopped
     * the charge refills by 0.2 times the recharge rate, up to 100.
     */
    method AutoMineTick(power: real, recharge: real, asteroids: seq<Asteroid>, player: Point, camera: Point,
                        zoomActive: bool, planets: seq<Planet>, oreRolls: seq<real>, dropRolls: seq<real>)
      returns (remaining: seq<Asteroid>, drops: seq<MaterialDrop>)
      requires Valid() && CoreSetting(recharge, power)
      requires |oreRolls| == |dropRolls| == AutoMineTargetCount
      modifies this`autoActive, this`charge, this`targets
      ensures Valid()
      ensures old(autoActive) ==> charge == MaxReal(0.0, old(charge) - ChargeDecrease * power)
      ensures !old(autoActive) ==>
        charge == MinReal(AutoMineMaxCharge, old(charge) + ChargeRefill * recharge) &&
        !autoActive && remaining == asteroids && drops == []
      ensures charge == 0.0 ==> !autoActive && targets == [] && remaining == asteroids && drops == []
      ensures old(autoActive) && charge > 0.0 ==>
        var n := |old(targets)|;
        var pass := Targeted(asteroids, old(targets), MiningDamagePerTick * power, camera, zoomActive, planets,
                             oreRolls[..n], dropRolls[..n], n);
        remaining == pass.0 && drops == pass.2 &&
        (pass.1 != [] ==> autoActive && targets == pass.1) &&
        (pass.1 == [] ==> targets == AutoMineTargets(pass.0, player, camera, zoomActive) && (autoActive <==> targets != []))
      ensures |remaining| <= |asteroids| && |drops| <= 2 * AutoMineTargetCount
    {
      remaining, drops := asteroids, [];
      if autoActive {
        charge := MaxReal(0.0, charge - ChargeDecrease * power);
        if charge <= 0.0 {
          autoActive := false;
          targets := [];
        } else {
          var n := |targets|;
          var kept;
          remaining, kept, drops := TargetPass(asteroids, targets, MiningDamagePerTick * power, camera, zoomActive,
                                               planets, oreRolls[..n], dropRolls[..n]);
          targets := kept;
          if targets == [] {
            targets := StartAutoMineTargeting(remaining, player, camera, zoomActive);
            if targets == [] {
              autoActive := false;
            }
          }
        }
      } else {
        charge := MinReal(AutoMineMaxCharge, charge + ChargeRefill * recharge);
      }
    }

    /**
     * The drill's frame: with the beam held, every shown asteroid the ship
     * touches (`touching[i]`) is mined.
     */
    method DrillTick(asteroids: seq<Asteroid>, touching: seq<bool>, power: real, planets: seq<Planet>,
                     oreRolls: seq<real>, dropRolls: seq<real>)
      returns (remaining: seq<Asteroid>, drops: seq<MaterialDrop>)
      requires |touching| == |oreRolls| == |dropRolls| == |asteroids|
      ensures !laserHeld ==> remaining == asteroids && drops == []
      ensures laserHeld ==>
        var hits := seq(|asteroids|, i requires 0 <= i < |asteroids| => Shown(asteroids[i]) && touching[i]);
        remaining == Mined(asteroids, hits, MiningDamagePerTick * power, |asteroids|) &&
        drops == MinedDrops(asteroids, hits, MiningDamagePerTick * power, "Drill", planets, oreRolls, dropRolls, |asteroids|)
      ensures |remaining| <= |asteroids|
    {
      if !laserHeld {
        return asteroids, [];
      }
      var hits := seq(|asteroids|, i requires 0 <= i < |asteroids| => Shown(asteroids[i]) && touching[i]);
      remaining, drops := ToolPass(asteroids, hits, power, "Drill", planets, oreRolls, dropRolls);
    }

    /**
     * A hand laser's frame: with the beam held and the cursor within the
     * laser's range of the ship (150 short, 600 long), every shown asteroid
     * under the cursor is mined.
     */
    method LaserTick(tool: string, asteroids: seq<Asteroid>, cursor: Point, player: Point, power: real,
                     planets: seq<Planet>, oreRolls: seq<real>, dropRolls: seq<real>)
      returns (remaining: seq<Asteroid>, drops: seq<MaterialDrop>)
      requires tool == "ShortRangeLaser" || tool == "LongRangeLaser"
      requires |oreRolls| == |dropRolls| == |asteroids|
      ensures !laserHeld || !WithinOrOn(cursor, player, LaserRange(tool)) ==> remaining == asteroids && drops == []
      ensures laserHeld && WithinOrOn(cursor, player, LaserRange(tool)) ==>
        remaining == Mined(asteroids, LaserHits(asteroids, cursor), MiningDamagePerTick * power, |asteroids|) &&
        drops == MinedDrops(asteroids, LaserHits(asteroids, cursor), MiningDamagePerTick * power, tool, planets,
                            oreRolls, dropRolls, |asteroids|)
      ensures |remaining| <= |asteroids|
    {
      if !laserHeld || !WithinOrOn(cursor, player, LaserRange(tool)) {
        return asteroids, [];
      }
      remaining, drops := ToolPass(asteroids, LaserHits(asteroids, cursor), power, tool, planets, oreRolls, dropRolls);
    }
  }
}
