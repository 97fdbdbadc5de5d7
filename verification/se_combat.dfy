// The combat and collection part of `update_game_state` in space_exp.py:
// player projectiles against enemies and against the enemy base, enemy
// projectiles against the player, and picking up ship parts and materials.
// Collision tests are inputs: each batch arrives as the list of hits the
// game's collision helpers report.

module SpaceExpCombat {
  import opened Geometry
  import opened SpaceExpEntities
  import opened SpaceExpPlayer

  const ShipPartSize: int := 10

  // ---------------------------------------------------------------------
  // Player projectiles against enemies
  // ---------------------------------------------------------------------

  /**
   * One projectile striking one enemy, by the enemy's position in the group
   * when the collision batch was taken.  A projectile that touches several
   * enemies contributes one hit per enemy, in the batch's order.
   */
  datatype Hit = Hit(damage: int, target: nat)

  /** The enemies as the batch leaves them, which of them were killed, the XP awarded and the parts dropped. */
  datatype Batch = Batch(enemies: seq<Enemy>, killed: seq<bool>, awards: seq<int>, parts: seq<ShipPart>)

  /** Every hit names an enemy of the group and does non-negative damage. */
  predicate HitsInRange(events: seq<Hit>, n: nat)
  {
    forall k :: 0 <= k < |events| ==> events[k].target < n && events[k].damage >= 0
  }

  /**
   * One hit: the enemy takes the damage; if its health is then zero it is
   * killed, its XP is awarded and, when the roll is below its drop chance,
   * a ship part of ten per part amount drops where it is.  The group no
   * longer holds a killed enemy but the batch does, so a later hit on it
   * finds zero health again.
   */
  function ApplyHit(b: Batch, h: Hit, roll: real): (r: Batch)
    requires h.target < |b.enemies| == |b.killed|
    ensures |r.enemies| == |r.killed| == |b.enemies|
  {
    var e := EnemyTakeDamage(b.enemies[h.target], h.damage);
    var es := b.enemies[h.target := e];
    if e.health <= 0 then
      Batch(es, b.killed[h.target := true], b.awards + [e.xpValue],
            b.parts + (if roll < e.dropChance then [ShipPart(e.pos, ShipPartSize * e.partAmount)] else []))
    else Batch(es, b.killed, b.awards, b.parts)
  }

  /** The first k hits of the batch, from the group as it was. */
  function ApplyHits(enemies: seq<Enemy>, events: seq<Hit>, rolls: seq<real>, k: nat): (r: Batch)
    requires k <= |events| == |rolls| && HitsInRange(events, |enemies|)
    ensures |r.enemies| == |r.killed| == |enemies|
    decreases k
  {
    if k == 0 then Batch(enemies, seq(|enemies|, _ => false), [], [])
    else ApplyHit(ApplyHits(enemies, events, rolls, k - 1), events[k - 1], rolls[k - 1])
  }

  /**
   * What a batch does: every hit whose target then has zero health awards
   * that target's XP, so each kill awards once and every further hit on the
   * same enemy in the batch awards again; an enemy is killed exactly when
   * its health ends at zero, and only health changes.
   */
  lemma {:induction false} ApplyHitsSound(enemies: seq<Enemy>, events: seq<Hit>, rolls: seq<real>, k: nat)
    requires k <= |events| == |rolls| && HitsInRange(events, |enemies|)
    requires forall i :: 0 <= i < |enemies| ==> enemies[i].health > 0
    ensures var b := ApplyHits(enemies, events, rolls, k);
      |b.parts| <= |b.awards| <= k &&
      (forall i :: 0 <= i < |enemies| ==> (b.killed[i] <==> b.enemies[i].health == 0)) &&
      (forall i :: 0 <= i < |enemies| ==>
        b.enemies[i] == enemies[i].(health := b.enemies[i].health) && 0 <= b.enemies[i].health <= enemies[i].health)
    decreases k
  {
    if k > 0 {
      ApplyHitsSound(enemies, events, rolls, k - 1);
      var prev := ApplyHits(enemies, events, rolls, k - 1);
      var h := events[k - 1];
      assert EnemyTakeDamage(prev.enemies[h.target], h.damage).health <= prev.enemies[h.target].health;
    }
  }

  /** The XP a batch awards is never negative when no enemy is worth negative XP. */
  lemma {:induction false} AwardsNonNegative(enemies: seq<Enemy>, events: seq<Hit>, rolls: seq<real>, k: nat)
    requires k <= |events| == |rolls| && HitsInRange(events, |enemies|)
    requires forall i :: 0 <= i < |enemies| ==> enemies[i].xpValue >= 0
    ensures var b := ApplyHits(enemies, events, rolls, k);
      (forall i :: 0 <= i < |enemies| ==> b.enemies[i].xpValue == enemies[i].xpValue) &&
      (forall j :: 0 <= j < |b.awards| ==> b.awards[j] >= 0)
    decreases k
  {
    if k > 0 {
      AwardsNonNegative(enemies, events, rolls, k - 1);
    }
  }

  /**
   * The quirk of the batch: two 50-damage projectiles that both touch one
   * regular enemy (health 50) award its 100 XP twice.
   */
  lemma DoubleXpForOneKill(pos: Point, r1: real, r2: real)
    ensures var b := ApplyHits([NewEnemy(Regular, pos)], [Hit(50, 0), Hit(50, 0)], [r1, r2], 2);
      b.awards == [100, 100] && b.killed == [true]
  {
    var b1 := ApplyHits([NewEnemy(Regular, pos)], [Hit(50, 0), Hit(50, 0)], [r1, r2], 1);
    assert b1.awards == [100];
  }

  /** Awarding XP in several calls to `add_xp` ends where one call with their total would. */
  lemma {:induction false} LevelUpAdditive(p: Progress, more: int)
    requires p.threshold >= 1 && more >= 0
    ensures var q := LevelUp(p);
      LevelUp(Progress(q.xp + more, q.level, q.threshold)) == LevelUp(Progress(p.xp + more, p.level, p.threshold))
    decreases p.xp
  {
    if p.xp >= p.threshold {
      LevelUpAdditive(Progress(p.xp - p.threshold, p.level + 1, NextThreshold(p.threshold)), more);
    }
  }

  /** Where `add_xp` leaves progress `p0` once the awards are credited, all in one call. */
  function Credited(p0: Progress, awards: seq<int>): Progress
    requires p0.threshold >= 1
  {
    LevelUp(Progress(p0.xp + Sum(awards), p0.level, p0.threshold))
  }

  lemma CreditStep(start: Progress, awards: seq<int>, xp: int, before: Progress, after: Progress)
    requires start.threshold >= 1 && xp >= 0
    requires before == Credited(start, awards)
    requires after == LevelUp(Progress(before.xp + xp, before.level, before.threshold))
    ensures after == Credited(start, awards + [xp])
  {
    SumAppend(awards, xp);
    LevelUpAdditive(Progress(start.xp + Sum(awards), start.level, start.threshold), xp);
  }

  /** One hit of the loop: the batch advances by `ApplyHit`, and a kill credits its XP through `add_xp`. */
  method Strike(p: Player, b: Batch, h: Hit, roll: real, ghost start: Progress) returns (next: Batch)
    requires p.Valid() && start.threshold >= 1
    requires h.target < |b.enemies| == |b.killed| && b.enemies[h.target].xpValue >= 0
    requires p.Rank() == Credited(start, b.awards)
    modifies p`currentXp, p`level, p`xpThreshold
    ensures p.Valid() && next == ApplyHit(b, h, roll)
    ensures p.Rank() == Credited(start, next.awards)
  {
    next := ApplyHit(b, h, roll);
    if next.enemies[h.target].health <= 0 {
      var xp := next.enemies[h.target].xpValue;
      assert next.awards == b.awards + [xp];
      Credit(p, start, b.awards, xp);
    } else {
      assert next.awards == b.awards;
    }
  }

  /** One kill's `add_xp`, seen as extending the batch's running total of awards. */
  method Credit(p: Player, ghost start: Progress, ghost awards: seq<int>, xp: int)
    requires p.Valid() && xp >= 0 && start.threshold >= 1
    requires p.Rank() == Credited(start, awards)
    modifies p`currentXp, p`level, p`xpThreshold
    ensures p.Valid()
    ensures p.Rank() == Credited(start, awards + [xp])
  {
    ghost var before := p.Rank();
    p.AddXp(xp);
    CreditStep(start, awards, xp, before, p.Rank());
  }

  lemma SumAppend(ds: seq<int>, d: int)
    ensures Sum(ds + [d]) == Sum(ds) + d
  {
    if ds != [] {
      assert (ds + [d])[1..] == ds[1..] + [d];
      SumAppend(ds[1..], d);
    }
  }

  /**
   * The collision loop of player projectiles against enemies: each hit
   * damages its enemy; a hit that leaves zero health kills the enemy, gives
   * the player its XP through `add_xp` and may drop a ship part.  The
   * survivors are the enemies no hit killed.
   */
  method ProjectilesHitEnemies(p: Player, enemies: seq<Enemy>, events: seq<Hit>, rolls: seq<real>)
    returns (survivors: seq<Enemy>, parts: seq<ShipPart>)
    requires p.Valid() && |events| == |rolls| && HitsInRange(events, |enemies|)
    requires forall i :: 0 <= i < |enemies| ==> enemies[i].xpValue >= 0
    modifies p`currentXp, p`level, p`xpThreshold
    ensures p.Valid()
    ensures var b := ApplyHits(enemies, events, rolls, |events|);
      parts == b.parts &&
      survivors == Alive(b.enemies, b.killed) &&
      p.Rank() == Credited(old(p.Rank()), b.awards)
  {
    var b := ApplyHits(enemies, events, rolls, 0);
    ghost var start := p.Rank();
    assert Sum(b.awards) == 0;
    assert LevelUp(start) == start;
    var i := 0;
    while i < |events|
      invariant 0 <= i <= |events| && p.Valid()
      invariant b == ApplyHits(enemies, events, rolls, i)
      invariant p.Rank() == Credited(start, b.awards)
    {
      AwardsNonNegative(enemies, events, rolls, i);
      b := Strike(p, b, events[i], rolls[i], start);
      i := i + 1;
    }
    survivors := Alive(b.enemies, b.killed);
    parts := b.parts;
  }

  /** The enemies whose flag is false, in order. */
  function Alive(es: seq<Enemy>, killed: seq<bool>): (r: seq<Enemy>)
    requires |es| == |killed|
    ensures |r| <= |es|
    ensures forall i :: 0 <= i < |es| && !killed[i] ==> es[i] in r
  {
    if es == [] then [] else (if killed[0] then [] else [es[0]]) + Alive(es[1..], killed[1..])
  }

  // ---------------------------------------------------------------------
  // Player projectiles against the enemy base
  // ---------------------------------------------------------------------

  /**
   * The base's batch: the base itself afterwards (none once destroyed) and
   * whether the game crashes.  A hit that destroys the base sets it to
   * none, and the next hit of the same batch then calls `take_damage` on
   * none, which raises.
   */
  datatype BaseResult = BaseResult(base: Option<EnemyBase>, crashed: bool)

  lemma {:induction false} DamagedByAppend(health: int, ds: seq<int>, d: int)
    ensures DamagedBy(health, ds + [d]) == DamagedInt(DamagedBy(health, ds), d)
    decreases ds
  {
    if ds != [] {
      assert (ds + [d])[1..] == ds[1..] + [d];
      DamagedByAppend(DamagedInt(health, ds[0]), ds[1..], d);
    }
  }

  /**
   * The base collision loop.  With base health h and hits d1..dn (all
   * non-negative), the base survives with h - (d1 + ... + dn) when that is
   * positive; it is destroyed cleanly when only the last hit brings it to
   * zero; and the game crashes exactly when an earlier hit already did.
   */
  method ProjectilesHitBase(base: Option<EnemyBase>, damages: seq<int>) returns (r: BaseResult)
    requires forall i :: 0 <= i < |damages| ==> damages[i] >= 0
    requires base.Some? ==> base.value.health > 0
    ensures base.None? ==> r == BaseResult(None, false)
    ensures base.Some? ==>
      (r.crashed <==> exists j :: 1 <= j < |damages| && Sum(damages[..j]) >= base.value.health)
    ensures base.Some? && !r.crashed ==>
      (r.base.Some? <==> Sum(damages) < base.value.health) &&
      (r.base.Some? ==> r.base.value == base.value.(health := base.value.health - Sum(damages)))
  {
    if base.None? {
      return BaseResult(None, false);
    }
    var b := base.value;
    var h0 := b.health;
    var current: Option<EnemyBase> := Some(b);
    var i := 0;
    while i < |damages|
      invariant 0 <= i <= |damages|
      invariant current.Some? ==> current.value == b.(health := DamagedBy(h0, damages[..i]))
      invariant current.Some? ==> current.value.health > 0
      invariant current.None? ==> i >= 1 && Sum(damages[..i]) >= h0
      invariant forall j :: 1 <= j < i ==> Sum(damages[..j]) < h0
      invariant current.Some? ==> Sum(damages[..i]) < h0
    {
      if current.None? {
        assert Sum(damages[..i]) >= h0 && 1 <= i < |damages|;
        return BaseResult(None, true);
      }
      assert damages[..i + 1] == damages[..i] + [damages[i]];
      DamagedByAppend(h0, damages[..i], damages[i]);
      DamagedByIsTotal(h0, damages[..i + 1]);
      SumAppend(damages[..i], damages[i]);
      var hit := BaseTakeDamage(current.value, damages[i]);
      if hit.health <= 0 {
        current := None;
      } else {
        current := Some(hit);
      }
      i := i + 1;
    }
    assert damages[..i] == damages;
    if current.Some? {
      DamagedByIsTotal(h0, damages);
    }
    r := BaseResult(current, false);
  }

  /** The end of the base's own update: a base at zero health is removed. */
  function RemoveDestroyedBase(base: Option<EnemyBase>): (r: Option<EnemyBase>)
    ensures r.Some? <==> base.Some? && base.value.health > 0
    ensures r.Some? ==> r == base
  {
    if base.Some? && base.value.health <= 0 then None else base
  }

  // ---------------------------------------------------------------------
  // Enemy projectiles against the player, collection, game over
  // ---------------------------------------------------------------------

  /**
   * Enemy projectiles touching the player: each deals its damage through
   * `take_damage`, and the batch ends exactly where one hit of the total
   * damage would.
   */
  method EnemyShotsHitPlayer(p: Player, damages: seq<int>)
    requires p.Valid()
    requires forall i :: 0 <= i < |damages| ==> damages[i] >= 0
    modifies p`health
    ensures p.Valid()
    ensures p.health == DamagedInt(old(p.health), Sum(damages))
  {
    var i := 0;
    while i < |damages|
      invariant 0 <= i <= |damages| && p.Valid()
      invariant p.health == DamagedBy(old(p.health), damages[..i])
    {
      assert damages[..i + 1] == damages[..i] + [damages[i]];
      DamagedByAppend(old(p.health), damages[..i], damages[i]);
      p.TakeDamage(damages[i]);
      i := i + 1;
    }
    assert damages[..i] == damages;
    DamagedByIsTotal(old(p.health), damages);
  }

  /** The parts a ship-part sprite is worth: its size over ten, rounded down. */
  function PartsIn(part: ShipPart): int
  {
    part.size / ShipPartSize
  }

  function PartsTotal(parts: seq<ShipPart>): int
  {
    if parts == [] then 0 else PartsIn(parts[0]) + PartsTotal(parts[1..])
  }

  lemma PartsTotalAppend(parts: seq<ShipPart>, q: ShipPart)
    ensures PartsTotal(parts + [q]) == PartsTotal(parts) + PartsIn(q)
  {
    if parts != [] {
      assert (parts + [q])[1..] == parts[1..] + [q];
      PartsTotalAppend(parts[1..], q);
    }
  }

  /** The stockpile after picking up each drop in turn. */
  function CollectedMaterials(s: Stockpile, drops: seq<MaterialDrop>): Stockpile
    decreases |drops|
  {
    if drops == [] then s
    else AddedMaterial(CollectedMaterials(s, drops[..|drops| - 1]), drops[|drops| - 1].kind, drops[|drops| - 1].amount)
  }

  /**
   * Picking up drops never takes anything away and never touches ship
   * parts; an unknown material name adds nothing.
   */
  lemma {:induction false} CollectingOnlyAdds(s: Stockpile, drops: seq<MaterialDrop>)
    requires forall i :: 0 <= i < |drops| ==> drops[i].amount >= 0
    ensures var r := CollectedMaterials(s, drops);
      r.carbon >= s.carbon && r.silicon >= s.silicon && r.gold >= s.gold &&
      r.rockyOre >= s.rockyOre && r.crystal >= s.crystal && r.shipParts == s.shipParts
    decreases |drops|
  {
    if drops != [] {
      CollectingOnlyAdds(s, drops[..|drops| - 1]);
    }
  }

  /**
   * Collection while the auto-miner's magnet is off: every ship part the
   * player touches adds its size over ten to the parts, and every material
   * drop it touches goes through `add_material`.
   */
  method Collect(p: Player, parts: seq<ShipPart>, drops: seq<MaterialDrop>)
    requires p.Valid()
    modifies p`shipParts, p`carbon, p`silicon, p`gold, p`rockyOre, p`crystal
    ensures p.Valid()
    ensures p.Stock() == CollectedMaterials(old(p.Stock()).(shipParts := old(p.shipParts) + PartsTotal(parts)), drops)
  {
    var i := 0;
    while i < |parts|
      invariant 0 <= i <= |parts| && p.Valid()
      invariant p.Stock() == old(p.Stock()).(shipParts := old(p.shipParts) + PartsTotal(parts[..i]))
    {
      assert parts[..i + 1] == parts[..i] + [parts[i]];
      PartsTotalAppend(parts[..i], parts[i]);
      p.AddShipParts(PartsIn(parts[i]));
      i := i + 1;
    }
    assert parts[..i] == parts;
    ghost var afterParts := p.Stock();
    var j := 0;
    while j < |drops|
      invariant 0 <= j <= |drops| && p.Valid()
      invariant p.Stock() == CollectedMaterials(afterParts, drops[..j])
    {
      assert drops[..j + 1][..j] == drops[..j];
      p.AddMaterial(drops[j].kind, drops[j].amount);
      j := j + 1;
    }
    assert drops[..j] == drops;
  }
}
