# Space mining game: the rules under the rendering

The repository holds four pygame versions of a 2D space game in which a ship
mines asteroids, fights enemies and upgrades itself:

- `space_exp.py`, the most complete version;
- `main.py`, `spacinator.py` and `test.py`, earlier versions.

This project models the deterministic bookkeeping of all four. That means the
rules that decide, tick by tick, what happens to health, score, experience,
inventories, cooldowns, frame counters, state flags and the lists of sprites.
Drawing, input polling and trigonometric movement are not modelled.

How the model is built:

- Randomness becomes parameters: rolls, candidate positions, split directions,
  kicks and resource types.
- Time becomes an explicit `now` parameter.
- Collision results come in as hit lists.
- Sprite groups are sequences of datatype records.
- Objects whose fields the game updates in place are classes:
  - the player ship, weapons, explosions and resources;
  - the early versions' worlds;
  - the mining rig and the game-state flow of `space_exp.py`.
  Each class's methods are proved against pure step functions.
- Distances are compared squared, with `real` arithmetic.

Modules:

| module | file | models |
|---|---|---|
| `Geometry` | `geometry.dfy` | points, squared distance, clamps, Python's `% 360` |
| `EarlyCommon` | `early_common.dfy` | what `main.py`, `spacinator.py` and `test.py` share: `damage`, `limit_position`, `generate_asteroid_position`, the enemy velocity blend |
| `Lifetimes` | `lifetimes.dfy` | `Explosion.update` and `Resource.update` frame counters |
| `MainGame` | `main_game.dfy` | `main.py` |
| `Spacinator` | `spacinator.dfy` | `spacinator.py` |
| `TestVariant` | `test_variant.dfy` | `test.py` |
| `SpaceExpEntities` | `se_entities.dfy` | `space_exp.py` asteroids, enemies, enemy base, drop table, proximity buff |
| `SpaceExpPlayer` | `se_player.dfy` | `space_exp.py` `Player`: levelling, inventory, loadout, shooting, rotation |
| `SpaceExpWorld` | `se_world.dfy` | camera, world/screen transform, visibility, nearest-target searches |
| `SpaceExpSpawn` | `se_spawn.dfy` | `spawn_asteroid`, `spawn_enemy`, `spawn_mining_zones`, `spawn_enemy_base` |
| `SpaceExpCulling` | `se_culling.dfy` | culling passes, the enemy pass, stealth reveal, refill choice, enemy spawn timer |
| `SpaceExpMining` | `se_mining.dfy` | drill, lasers, auto-miner targeting and charge |
| `SpaceExpCombat` | `se_combat.dfy` | projectile hits, base destruction, enemy shots, collection |
| `SpaceExpStates` | `se_states.dfy` | station, outpost, inventory and jump-drive state transitions, regeneration, game over |

Three quirks of `space_exp.py` are reproduced rather than fixed:

- Two projectiles hitting one enemy in the same batch award its XP twice.
- A hit that follows the one destroying the enemy base dereferences `None`. The model shows this as a `crashed` outcome.
- RockyOre from the lasers is dropped at `(x, x)`.

## Model

| member | source | states |
|---|---|---|
| EarlyCommon.Offset | main.py:89-93 | along a unit direction `(cos a, sin a)` the displaced child lands exactly `dist` from its parent |
| EarlyCommon.TakeHit | main.py:264-266 | health falls iff the amount is positive; destroyed iff the amount covers the health (no clamping) |
| EarlyCommon.HitsToDestroy | spacinator.py:186-189 | after k equal hits health is `health - k·amount`; destroyed iff `k·amount >= health` |
| EarlyCommon.DamageRock | test.py:211-213 | only the rock's health changes; the flag is true iff the new health is <= 0 |
| EarlyCommon.LimitPosition | spacinator.py:59-64 | each coordinate lies in [0, max]; points already inside are unchanged; points beyond a side go to that side |
| EarlyCommon.LimitIdempotent | test.py:60-64 | limiting twice equals limiting once |
| EarlyCommon.FirstClear | spacinator.py:108-114 | the first draw farther than the clearance from the player, preceded only by draws that are not; None iff no draw is clear |
| EarlyCommon.ClearSpots | test.py:776-782 | a run of draw loops yields at most one spot per loop, each clear of the player, and one for every loop exactly when every loop has a clear draw |
| EarlyCommon.GenerateAsteroidPosition | spacinator.py:108-114 | the redraw loop returns `FirstClear` of its draws: the first drawn point farther than the clearance from the player; None iff no draw is clear |
| EarlyCommon.Steer | test.py:257-266 | the new enemy speed on an axis lies in [-max, max]; without a target an in-range speed is kept |
| EarlyCommon.SteerClosesGap | main.py:305-314 | inside the limit the gap to the target velocity shrinks by exactly `1 - factor` per frame |
| Lifetimes.BurstStep | main.py:456-465 | one more frame elapses; the stage advances by one after four frames; the sprite dies on reaching stage five and never revives |
| Lifetimes.BurstClock | test.py:416-425 | after n updates the counters are stage `n div 4` and frame `n mod 4` until frame 20, then dead at stage 5 |
| Lifetimes.ExplosionLasts20 | main.py:456-465 | an explosion is alive after exactly its first 19 updates and removed by the 20th |
| Lifetimes.Explosion.constructor | spacinator.py:448-470 | a new explosion at frame 0, stage 0, alive |
| Lifetimes.Explosion.Update | spacinator.py:482-492 | the counters become `BurstStep` of the old counters; the centre is unchanged |
| Lifetimes.FuseStep | spacinator.py:204-208 | lifetime drops by one; the resource stays alive iff it was alive with more than one frame left |
| Lifetimes.ResourceExpires | test.py:227-230 | a resource with `life` frames survives exactly `max(life, 1)` updates, losing one per update |
| Lifetimes.Resource.constructor | main.py:269-276 | a live resource worth `(type + 1)·unit` with its full lifetime |
| Lifetimes.Resource.Update | main.py:278-282 | lifetime and liveness follow `FuseStep`; position, type and value are unchanged |
| MainGame.AsteroidHealth | main.py:258 | tier health is 80, 120 and 150 |
| MainGame.ChildSpeed | main.py:99-104 | a child's speed axis lies in [-1.5, 1.5] and equals `0.4·parent + kick` when that is in range |
| MainGame.SplitAsteroid | main.py:78-121 | a large or medium asteroid gives exactly two asteroids one tier smaller, displaced `size + 15`, each with speed `ChildSpeed` (0.4 of the parent's plus its push, clamped to 1.5) on each axis and that tier's health; a small one gives 2-4 resources at its position and no asteroid |
| MainGame.SplitDisplacement | main.py:89-93 | the children land 45 (from large) or 40 (from medium) from the parent |
| MainGame.SplitTerminates | main.py:84-87 | every child asteroid is strictly smaller, so splitting ends; small asteroids yield only resources |
| MainGame.ResourceLasts900 | main.py:276-282 | a resource is alive for exactly 900 updates |
| MainGame.MissilesToBreak | main.py:807-810 | with missile damage 25 times 1.5, a large asteroid breaks after 3 hits and the others after 4 |
| MainGame.AxisStep | main.py:153-165 | the new speed lies in [-0.2, 0.2]; with thrust it is `v + accel` when in range; without thrust it decays toward zero without changing sign |
| MainGame.AccelerateFromRest | main.py:153-165 | from rest under constant thrust the speed after n frames is `min(0.2, n·accel)` |
| MainGame.CoastDecays | main.py:158-161 | coasting from an in-range speed gives `v·0.98^n` after n frames |
| MainGame.GunUpdate | main.py:407-409 | the weapon becomes ready once `now >= next_fire`, and only its readiness changes |
| MainGame.GunFired | main.py:411-420 | firing clears `ready` and sets `next_fire = now + 1.0` |
| MainGame.CooldownHolds | main.py:407-420 | no update before `now + 1.0` makes a fired weapon ready again |
| MainGame.Rearms | main.py:407-420 | an update at or after `now + 1.0` rearms it; it can then fire iff it is the missile launcher |
| MainGame.Weapon.constructor | main.py:401-405 | a new missile launcher, ready, with `next_fire = now` |
| MainGame.Weapon.Update | main.py:407-409 | the weapon's state becomes `GunUpdate` of the old state |
| MainGame.Weapon.Fire | main.py:411-420 | a 25-damage missile comes out iff the weapon is ready, is the missile launcher and has a target; the state then follows `GunFired`, otherwise nothing changes |
| MainGame.NothingToBuy | main.py:54-58 | the only weapon in the cost table is owned from the start, so every purchase fails |
| MainGame.Spaceship.constructor | main.py:126-150 | a ship at rest with full health, score 0, owning only a ready missile launcher |
| MainGame.Spaceship.Update | main.py:152-180 | each speed axis follows `AxisStep`; the position advances by the new speed; the weapon is updated; nothing else changes |
| MainGame.Spaceship.SetAcceleration | main.py:182-185 | the acceleration is the direction times 0.005 |
| MainGame.Spaceship.FirePrimary | main.py:187-194 | the ship's weapon fires under the conditions and with the effect of `Weapon.Fire` |
| MainGame.Spaceship.BuyWeapon | main.py:196-213 | succeeds iff the weapon is known, affordable and unowned, then deducts exactly its cost and appends it; failure changes nothing; the score stays non-negative and owned weapons stay distinct |
| MainGame.Spaceship.SwitchWeapon | main.py:215-223 | succeeds iff the weapon is owned; only then does the weapon type change |
| MainGame.RaiderStep | main.py:297-316 | the enemy's speed stays within [-1.8, 1.8] per axis; it moves by its new speed; health is unchanged |
| MainGame.RaiderHomesIn | main.py:305-314 | in range, the gap between the enemy's speed and the target velocity shrinks to 97% per frame |
| MainGame.MissilesToDownRaider | main.py:291 | an enemy of health 75 falls after exactly 2 missiles of damage 25 doubled |
| MainGame.CameraStep | main.py:716-720 | each tick closes 5% of the gap to the player without overshooting |
| MainGame.CameraConverges | main.py:716-720 | after n ticks the gap is `0.95^n` of the original |
| MainGame.MinAsteroids | main.py:901-904 | the minimum is `int(10·(1 + d/1000))`, i.e. at least 10 and one more per 100 units of distance |
| MainGame.MinEnemies | main.py:901-905 | the minimum is `int(2·(1 + d/1000))`, i.e. at least 2 and one more per 500 units |
| MainGame.RefillGrowsWithDistance | main.py:901-905 | both minimums are monotone in the distance |
| MainGame.Deficit | main.py:913-915 | the number to spawn brings the count up to the minimum, and is 0 at or above it |
| MainGame.Spawned | main.py:916-923 | one asteroid per draw, at the drawn position with its tier's health |
| MainGame.World.constructor | main.py:473-488 | the camera starts at the origin with empty groups |
| MainGame.World.FollowCamera | main.py:716-720 | each camera axis follows `CameraStep` toward the player |
| MainGame.World.RefillAsteroids | main.py:913-923 | exactly the deficit is appended from the draws; the count becomes `max(count, minimum)` |
| MainGame.World.RefillEnemies | main.py:926-934 | existing enemies are kept and exactly the deficit of new full-health enemies is appended from the draws |
| Spacinator.AsteroidHealth | spacinator.py:172 | asteroid health is its size times 2: 80, 60 and 50 |
| Spacinator.SplitAsteroid | spacinator.py:66-106 | a large or medium asteroid gives exactly two asteroids one tier smaller, displaced `size + 5`, each with speed `0.5·parent + push/(tier + 1.5)` per axis, unclamped, and that tier's health; a small one gives 1-3 resources at its position |
| Spacinator.SplitKeepsSpeedLimit | spacinator.py:89-90 | with bounded parent speed and kicks, the unclamped child speeds `0.5·parent + kick/(index + 1.5)` stay in range |
| Spacinator.MissilesToBreakLarge | spacinator.py:797-800 | a large asteroid breaks after exactly 2 missiles of damage 20 doubled |
| Spacinator.ResourceLasts600 | spacinator.py:201-208 | a resource is alive for exactly 600 updates |
| Spacinator.Loadout | spacinator.py:412-420 | the delay/damage pairs are 0.4/20, 0.05/0.5 and 0.7/50; other kinds keep the old values |
| Spacinator.Weapon.constructor | spacinator.py:400-405 | the weapon starts with its type's kind and loadout, ready |
| Spacinator.Weapon.SetWeaponType | spacinator.py:407-422 | the type, kind and loadout change, `ready` becomes true, and the next fire time is kept |
| Spacinator.Weapon.Update | spacinator.py:424-427 | the weapon becomes ready once `now > next_fire` |
| Spacinator.Weapon.Fire | spacinator.py:429-444 | a missile needs a target and a plasma bolt a target position; the laser never yields a projectile; firing sets `next_fire = now + delay`; otherwise nothing changes |
| Spacinator.AfterSelect | spacinator.py:656-665 | a selection is allowed iff the score covers the cost or the weapon is equipped; the cost is deducted only when the weapon changes; the score never goes negative |
| Spacinator.ReturningIsChargedAgain | spacinator.py:660-664 | laser, then missile, then laser again costs 1000, because returning to a weapon is paid again |
| Spacinator.LaserPass | spacinator.py:710-724 | at most one asteroid per frame is destroyed and removed, one that was under the cursor and ran out of health; otherwise every hit asteroid loses the laser damage |
| Spacinator.LaserPassSound | spacinator.py:710-724 | either no asteroid under the cursor runs out and all of them are damaged in place, or the first that runs out is destroyed, those before it are damaged and survive, and those after it are untouched, in order |
| Spacinator.LaserWearsDown | spacinator.py:710-724 | a lone asteroid under the laser is destroyed on the frame where the accumulated damage covers its health |
| Spacinator.Spaceship.constructor | spacinator.py:127-140 | a ship centred at the given point, at rest, full health, score 0, with a ready missile launcher |
| Spacinator.Spaceship.Update | spacinator.py:142-149 | the ship moves by its speed and is kept inside the screen; the weapon is updated |
| Spacinator.Spaceship.Accelerate | spacinator.py:151-158 | only the named axis changes, to ±5 or 0; unknown directions change nothing |
| Spacinator.Spaceship.SelectWeapon | spacinator.py:655-668 | score and weapon name follow `AfterSelect`; an allowed selection sets the type's loadout and readiness; a refused one changes nothing |
| Spacinator.Spaceship.LaserFrame | spacinator.py:701-729 | while firing with positive score, the score drains 0.5 (floored at 0) plus 5 per destroyed asteroid; the asteroids become `LaserPass` of the old ones, and the destroyed one splits; otherwise the laser is off and nothing changes |
| Spacinator.Arena.constructor | spacinator.py:504-510 | the groups start empty |
| Spacinator.Respawned | spacinator.py:834-844 | each respawn draw with a clear spot adds an asteroid more than 150 from the player with its tier's health; with all draws placeable, asteroid k sits at the first clear spot of draw k with that draw's tier and speed |
| Spacinator.Arena.RespawnAsteroids | spacinator.py:834-844 | below 3 asteroids exactly `Respawned` of the deficit's draws is appended, at positions more than 150 from the player with their tier's health; with placeable draws the count reaches 3 |
| Spacinator.Arena.RespawnEnemies | spacinator.py:846-853 | with no enemies, the enemies become `ClearSpots` of the first 2 draws: each at its draw's first spot more than 150 from the player, exactly 2 with placeable draws; otherwise nothing changes |
| TestVariant.AsteroidHealth | test.py:199 | asteroid health is 80, 120 and 150 |
| TestVariant.ChildSpeed | test.py:87-92 | a child's speed axis lies in [-1, 1] and equals `0.4·parent + kick` when that is in range |
| TestVariant.SplitAsteroid | test.py:66-109 | a large or medium asteroid gives exactly two smaller asteroids, displaced `size + 10`, each with speed `ChildSpeed` (0.4 of the parent's plus its push, clamped to 1) on each axis and their health; a small one gives 2-4 resources |
| TestVariant.SplitDisplacement | test.py:77-81 | the children land 40 (from large) or 35 (from medium) from the parent |
| TestVariant.MissilesToBreak | test.py:683-684 | a missile hits asteroids with its damage 50 times 1.5 (75), so every tier, large, medium and small, breaks on exactly the second missile |
| TestVariant.AxisStep | test.py:143-155 | the new speed lies in [-4, 4]; with thrust it is `v + accel` in range; without thrust it decays toward zero |
| TestVariant.AccelerateFromRest | test.py:143-155 | from rest the speed after n frames is `min(4, n·accel)` |
| TestVariant.Weapon.constructor | test.py:360-364 | a new missile launcher, ready, with `next_fire = now` |
| TestVariant.Weapon.Update | test.py:366-369 | the weapon becomes ready once `now >= next_fire` |
| TestVariant.Weapon.Fire | test.py:371-381 | a 50-damage missile comes out iff ready, missile launcher and a target; the cooldown is then 0.5; otherwise nothing changes |
| TestVariant.Spaceship.constructor | test.py:122-140 | a ship at rest at the given corner with full health and score 0 |
| TestVariant.Spaceship.Update | test.py:142-172 | each speed axis follows `AxisStep`; the rect at its old size is clamped inside the screen and then re-made around the same centre at the rotated size, so its centre stays on screen while the rect may stick out by half its growth; the weapon is updated |
| TestVariant.Spaceship.SetAcceleration | test.py:174-177 | the acceleration is the direction times the ship's acceleration |
| TestVariant.Spaceship.FirePrimary | test.py:179-185 | fires iff ready, missile launcher and a target, with a 0.5 cooldown |
| TestVariant.Spaceship.Restart | test.py:567-578 | health, score, position, speed, acceleration and laser flag are reset |
| TestVariant.DroneStep | test.py:249-274 | the enemy's speed stays within [-1.2, 1.2]; it moves by the blended speed; on each axis separately the speed is reversed exactly when the rectangle sticks out of the screen on that axis |
| TestVariant.DroneTurnsBack | test.py:273-274 | an enemy that crosses a side wall in one frame leaves it heading back toward the screen |
| TestVariant.DroneHomesIn | test.py:257-266 | away from the edges the gap to the target velocity shrinks to 97% per frame |
| TestVariant.TogglePause | test.py:554-558 | playing and paused swap; game over stays game over |
| TestVariant.MenuOfThree | test.py:488-502 | over three items the click yields Resume → playing, the missile item → paused with the missile launcher, else paused unchanged |
| TestVariant.PauseMenuOutcome | test.py:488-502 | the outcome over the actual pause-menu items |
| TestVariant.MenuItemsMention | test.py:453 | the missile item names the missile launcher and the laser item does not |
| TestVariant.HandlePauseMenuClick | test.py:488-502 | the loop equals `MenuClick`: items are checked in order; a clicked Resume returns to the game at once, a clicked missile item equips the launcher and the loop continues; otherwise the menu stays paused |
| TestVariant.MinAsteroids | test.py:763 | the minimum is `5 + score div 200` |
| TestVariant.MinEnemies | test.py:764 | the minimum is `1 + score div 500` |
| TestVariant.MinimaGrowWithScore | test.py:763-764 | the minimums are at least 5 and 1 and grow by one per 200 and per 500 points |
| TestVariant.Field.constructor | test.py:433-438 | the groups start empty |
| TestVariant.Respawned | test.py:766-774 | each respawn draw with a clear spot adds an asteroid more than 200 from the player with its tier's health; with all draws placeable, asteroid k sits at the first clear spot of draw k with that draw's tier and speed |
| TestVariant.Field.RespawnAsteroids | test.py:766-774 | existing asteroids are kept and `Respawned` of the deficit's draws is appended: new ones lie more than 200 from the player with their tier's health; with placeable draws exactly the deficit is added |
| TestVariant.Field.RespawnEnemies | test.py:776-782 | existing enemies are kept and `ClearSpots` of the deficit's draws is appended: each new one at its draw's first spot more than 200 from the player; with placeable draws exactly the deficit is added |
| SpaceExpEntities.DamagedInt | space_exp.py:537-541 | health becomes `max(0, health - amount)`: never negative, zero iff the amount covers it |
| SpaceExpEntities.DamagedReal | space_exp.py:614-618 | the same clamp on a real-valued health |
| SpaceExpEntities.DamagedByIsTotal | space_exp.py:768-772 | a run of non-negative hits clamps the same as one hit of their sum |
| SpaceExpEntities.NewAsteroid | space_exp.py:592-612 | a new asteroid has health and maximum health `2·size`, unrevealed |
| SpaceExpEntities.AsteroidTakeDamage | space_exp.py:614-618 | only health changes, clamped; destroyed iff the amount covers the health |
| SpaceExpEntities.GetMaterialDrop | space_exp.py:620-645 | the table walk agrees with the running sums 0.70, 0.95, 1.0 (`MaterialFor`): Carbon iff roll < 0.70, Silicon iff 0.70 <= roll < 0.95, Gold iff 0.95 <= roll < 1.0, none otherwise; one unit when a drop occurs |
| SpaceExpEntities.NewEnemy | space_exp.py:679-704 | each kind's health, speed, XP, drop chance, parts, damage and cooldown; current values start at the base values |
| SpaceExpEntities.EnemyTakeDamage | space_exp.py:768-772 | only health changes, clamped at 0; destroyed iff the amount covers it |
| SpaceExpEntities.ProximityMultiplier | space_exp.py:2189-2198 | the buff lies in [1, 2]; it is 1 without a base or at distance >= 1200, 2 at distance 0, and falls linearly between |
| SpaceExpEntities.ProximityMonotone | space_exp.py:2189-2198 | nearer to the base is never a weaker buff |
| SpaceExpEntities.Buffed | space_exp.py:712-719 | speed, damage and cooldown stay between base and double or half; accuracy offset is `30·(2 - m)` in [0, 30]; at m = 1 the base values are restored |
| SpaceExpEntities.EnemyShoot | space_exp.py:747-766 | an enemy shoots iff more than its current cooldown has passed; it then fires its current damage and records `now`; otherwise it is unchanged |
| SpaceExpEntities.NewEnemyBase | space_exp.py:1272-1297 | a base of size 200 with health and maximum 1000 |
| SpaceExpEntities.BaseTakeDamage | space_exp.py:1346-1351 | only health changes, clamped at 0; destroyed iff the amount covers it |
| SpaceExpEntities.TurretOffset | space_exp.py:1319-1320 | the turret offset is `30·min(1, d/1200)`, in [0, 30], and 0 only at distance 0 |
| SpaceExpPlayer.LevelUp | space_exp.py:547-554 | levelling never lowers the threshold |
| SpaceExpPlayer.LevelUpSettles | space_exp.py:547-554 | afterwards `xp < threshold`, non-negative xp stays non-negative, the level only rises, and it rises iff xp reached the threshold |
| SpaceExpPlayer.LevelUpCarriesOver | space_exp.py:547-554 | the xp spent on the gained levels plus the xp left equals the xp before; the threshold is the old one grown once per level |
| SpaceExpPlayer.OneLevelAtATime | space_exp.py:550-553 | one pass subtracts the threshold, adds a level and sets the threshold to `(3·t) div 2` |
| SpaceExpPlayer.ThresholdAfter | space_exp.py:553 | thresholds never shrink across level-ups |
| SpaceExpPlayer.AddedMaterial | space_exp.py:561-573 | unknown material names change nothing; ship parts are never touched |
| SpaceExpPlayer.AddedMaterialCounts | space_exp.py:561-573 | exactly the named material grows by the amount; the others are unchanged |
| SpaceExpPlayer.TradeCrystal | space_exp.py:2124-2141 | the trade succeeds iff gold >= 5, silicon >= 10 and parts >= 3, then takes exactly those and adds one crystal, keeping a non-negative inventory non-negative |
| SpaceExpPlayer.TradesPossibleIsScarcest | space_exp.py:2124-2141 | repeated trades stop after `min(gold div 5, silicon div 10, parts div 3)` crystals |
| SpaceExpPlayer.SwarmFan | space_exp.py:515-525 | exactly 7 rockets at angles `heading + (i - 3)·30` mod 360 |
| SpaceExpPlayer.FireWeapon | space_exp.py:473-535 | the cooldown is consumed iff the weapon is known and strictly cooled down; a bolt always fires; homing and swarm shots need a target but consume the cooldown anyway |
| SpaceExpPlayer.TurnGap | space_exp.py:398 | the signed angle difference lies in [-180, 180) |
| SpaceExpPlayer.AlignStepCloses | space_exp.py:396-405 | each alignment step turns 3 degrees toward the target, or snaps to it within 1 degree |
| SpaceExpPlayer.Player.constructor | space_exp.py:334-388 | the starting ship: health 100, level 1, an empty inventory, drill, standard thruster, basic antenna, laser in slot 1 and nothing in slot 2 |
| SpaceExpPlayer.Player.TakeDamage | space_exp.py:537-541 | health becomes `max(0, health - amount)` |
| SpaceExpPlayer.Player.AddXp | space_exp.py:547-554 | experience, level and threshold become those of `LevelUp` on the added xp |
| SpaceExpPlayer.Player.AddShipParts | space_exp.py:556-559 | only ship parts grow, by the amount |
| SpaceExpPlayer.Player.AddMaterial | space_exp.py:561-573 | the inventory becomes `AddedMaterial` of the old one |
| SpaceExpPlayer.Player.TradeForCrystal | space_exp.py:2124-2141 | trades iff affordable, with the exact deltas of `TradeCrystal`; otherwise the inventory is unchanged |
| SpaceExpPlayer.Player.SetEngine | space_exp.py:436-446 | a known engine is installed; an unknown name changes nothing |
| SpaceExpPlayer.Player.SetAntenna | space_exp.py:448-456 | a known antenna is installed; an unknown name changes nothing |
| SpaceExpPlayer.Player.SetWeapon | space_exp.py:458-470 | a known weapon goes into slot 1 or 2 leaving the other slot; other names or slots change nothing |
| SpaceExpPlayer.Player.InstallCore | space_exp.py:2020-2033 | the advanced core gives recharge 1.5 and power 1.2, the standard one 1.0 and 1.0 |
| SpaceExpPlayer.Player.Shoot | space_exp.py:473-535 | only the chosen slot's timestamp can change, and only when its weapon fires; other slots return nothing and change nothing |
| SpaceExpPlayer.Player.Rotate | space_exp.py:406-412 | the heading turns by the rotation speed per held key and stays in [0, 360) |
| SpaceExpPlayer.Player.Align | space_exp.py:396-405 | the heading takes one `AlignStep` toward the target |
| SpaceExpWorld.ZoomFactor | space_exp.py:2162 | the zoom factor is positive |
| SpaceExpWorld.WorldScreenRoundTrip | space_exp.py:1480-1487 | world to screen and back is the identity, both ways, for any nonzero zoom |
| SpaceExpWorld.VisibleInWorldUnits | space_exp.py:1741-1757 | an object is visible iff it overlaps the camera's view rectangle in world units |
| SpaceExpWorld.CameraStep | space_exp.py:2160-2175 | each tick the camera closes 10% of the gap to its target, centred on the player |
| SpaceExpWorld.CameraConverges | space_exp.py:2160-2175 | after n ticks the gap is `0.9^n` of the original |
| SpaceExpWorld.FindNearestAsteroid | space_exp.py:1243-1252 | none iff there are no asteroids; otherwise the first asteroid at minimal distance |
| SpaceExpWorld.FindNearestEnemyOrBase | space_exp.py:2678-2701 | the nearest in-range enemy (first on ties) or the base when strictly nearer; no target iff nothing is in range |
| SpaceExpSpawn.SpawnAsteroid | space_exp.py:1494-1558 | a zone asteroid goes at the first draw; a general one at the first of 5 candidates at least 500 from the station, outside the zones and at least 1200 from the base, else nothing is added |
| SpaceExpSpawn.EdgePointOffScreen | space_exp.py:1560-1620 | an edge spawn point is never visible on screen |
| SpaceExpSpawn.EnemyKindFor | space_exp.py:1560-1620 | Elite iff roll < 0.2, Fast iff 0.2 <= roll < 0.5, Regular otherwise |
| SpaceExpSpawn.SpawnEnemy | space_exp.py:1560-1620 | a new enemy goes at the first of 10 edge candidates clear of the station, the zones and the base, else nothing is added |
| SpaceExpSpawn.FirstZoneSpot | space_exp.py:1657-1674 | the first of the five checked draws that keeps clear of the station and base, preceded only by rejected ones; None iff all five are rejected |
| SpaceExpSpawn.PlacedZones | space_exp.py:1649-1679 | at most one zone per draw group, each of the zone radius at an acceptable centre; one for every group exactly when every group has an acceptable draw |
| SpaceExpSpawn.SpawnMiningZones | space_exp.py:1649-1679 | the zones are `PlacedZones` of the draws: in order, one per group with an acceptable draw, centred on its first acceptable draw; at most 3, exactly 3 when every group has one |
| SpaceExpSpawn.SpawnEnemyBase | space_exp.py:1692-1727 | the base goes at the first acceptable of 10 candidates, else at the fallback point |
| SpaceExpCulling.Cull | space_exp.py:2241-2258 | the kept items are exactly the members that pass the test, in order |
| SpaceExpCulling.CullAsteroids | space_exp.py:2241-2252 | an asteroid is kept iff it belongs to a zone or lies within 1000 of the player; zone asteroids are never culled |
| SpaceExpCulling.CullMaterialDrops | space_exp.py:2254-2258 | a drop is kept iff it lies within 1000 of the player |
| SpaceExpCulling.CullFarZones | space_exp.py:2276-2286 | an asteroid of a zone that is too far is removed; all others are kept |
| SpaceExpCulling.EnemyTick | space_exp.py:2189-2200 | an enemy moves, its buff is applied, and health, kind and last shot are unchanged |
| SpaceExpCulling.EnemyPassSound | space_exp.py:2188-2229 | every kept enemy is a moved, buffed input enemy within range and outside the safe zones; there are no more shots than kept enemies |
| SpaceExpCulling.EnemyPassKeepsSurvivors | space_exp.py:2202-2229 | exactly the enemies whose new position survives are kept |
| SpaceExpCulling.EnemyPass | space_exp.py:2188-2229 | the loop yields the enemies and shots of the specification; no kept enemy is beyond 1000, near the station or in a zone |
| SpaceExpCulling.RevealPass | space_exp.py:2325-2339 | only the revealed flag changes; an asteroid is shown iff it is not stealthy or the antenna reveals stealth |
| SpaceExpCulling.ZoneCount | space_exp.py:2262-2265 | a zone's asteroid count never exceeds the group size |
| SpaceExpCulling.NextRefill | space_exp.py:2260-2268 | the first zone short of asteroids is refilled first; a general asteroid only when all zones are full and the total is below the cap |
| SpaceExpCulling.FirstShortZone | space_exp.py:2262-2265 | the first short zone at or after the start |
| SpaceExpCulling.EnemySpawnTick | space_exp.py:2270-2273 | when the timer is due, at most one enemy is added and the timer restarts; the enemy cap is kept |
| SpaceExpMining.AutoMineTargetsSound | space_exp.py:1759-1773 | at most 3 targets, each eligible, ordered by distance, and no eligible asteroid left out is nearer than a target |
| SpaceExpMining.StartAutoMineTargeting | space_exp.py:1759-1773 | the targets are the at most 3 nearest eligible asteroids, sorted by distance |
| SpaceExpMining.RockyOreSpot | space_exp.py:2390 | the laser drop is placed at `(x, x)`: it matches the asteroid only for the drill or when x equals y |
| SpaceExpMining.RockyOreMisplaced | space_exp.py:2424 | an asteroid at (0, 1000) gets its laser RockyOre 1000 away, while the drill's lands on it |
| SpaceExpMining.Drops | space_exp.py:2349-2366 | a destroyed asteroid near a rocky planet drops RockyOre on the ore roll, then one unit of the table's material at the asteroid when the roll is below 1 |
| SpaceExpMining.KillDrops | space_exp.py:2349-2366 | the planet search and drop-table walk leave exactly `Drops` of the asteroid |
| SpaceExpMining.MinedSound | space_exp.py:2349-2366 | unhit asteroids survive unchanged; hit ones survive damaged iff still healthy; nothing else appears |
| SpaceExpMining.MinedDrops | space_exp.py:2343-2397 | the drops of a mining pass are those of each mined-out asteroid in order, at most two per removed asteroid |
| SpaceExpMining.ToolPass | space_exp.py:2343-2397 | the asteroids become `Mined` of the old ones and the drops are `MinedDrops`: each mined-out asteroid's `Drops`, in order, at most two per removed asteroid |
| SpaceExpMining.LaserHits | space_exp.py:2374-2377 | an asteroid is hit iff it is shown and the cursor lies inside it |
| SpaceExpMining.TargetedSound | space_exp.py:2407-2439 | the target pass never grows the world; untargeted asteroids stay; kept targets are damaged, shown, on-screen targets with health left; the world holds only old asteroids and damaged targets; at most two drops per target |
| SpaceExpMining.TargetPass | space_exp.py:2407-2439 | the loop computes `Targeted`: still-mineable targets are damaged in place, mined-out ones removed with their drops, others dropped from the targets; kept targets are damaged targets still alive |
| SpaceExpMining.ReplaceAllMembers | space_exp.py:2411-2412 | damaging a target in place keeps the group's length, keeps every other asteroid and adds nothing but the damaged target |
| SpaceExpMining.MiningRig.constructor | space_exp.py:1421-1428 | the laser off, the auto-miner off with full charge and no targets |
| SpaceExpMining.MiningRig.HoldBeam | space_exp.py:1858-1859 | with the drill or a hand laser, the beam flag follows the F key |
| SpaceExpMining.MiningRig.ToggleAutoMine | space_exp.py:1840-1857 | turns off and clears the targets when active; when inactive with charge, targets the nearest and activates iff any were found |
| SpaceExpMining.MiningRig.SelectTool | space_exp.py:1986-2014 | the tool is set; leaving the auto-miner deactivates it and clears its targets |
| SpaceExpMining.MiningRig.AutoMineTick | space_exp.py:2398-2448 | the charge drains while active and refills while not, staying in [0, 100]; at 0 the miner turns off and clears its targets; otherwise the world and drops are `Targeted` of the old targets, damaged targets stay targeted, and with none left a fresh `AutoMineTargets` selection is made, the miner stopping if it is empty |
| SpaceExpMining.MiningRig.DrillTick | space_exp.py:2343-2367 | while held, shown asteroids touching the ship are mined (`Mined`) and leave `MinedDrops`; otherwise nothing changes |
| SpaceExpMining.MiningRig.LaserTick | space_exp.py:2368-2397 | while held and the cursor is within the laser's range, every shown asteroid under the cursor is mined (`Mined`) and leaves `MinedDrops`; otherwise nothing changes |
| SpaceExpCombat.ApplyHit | space_exp.py:2478-2485 | one hit keeps the per-enemy lists aligned |
| SpaceExpCombat.ApplyHits | space_exp.py:2478-2487 | a batch of hits keeps the per-enemy lists aligned |
| SpaceExpCombat.ApplyHitsSound | space_exp.py:2478-2487 | only health changes, never below 0 or above its old value; killed iff health is 0; no more parts than awards and no more awards than hits |
| SpaceExpCombat.AwardsNonNegative | space_exp.py:2482 | every XP award is non-negative |
| SpaceExpCombat.DoubleXpForOneKill | space_exp.py:2478-2487 | two 50-damage hits on one regular enemy in a batch award its 100 XP twice |
| SpaceExpCombat.LevelUpAdditive | space_exp.py:547-554 | levelling after each award equals levelling once after the sum |
| SpaceExpCombat.Strike | space_exp.py:2478-2485 | one hit applied and its award credited to the player |
| SpaceExpCombat.Credit | space_exp.py:2482 | the player's rank is credited with one more award |
| SpaceExpCombat.ProjectilesHitEnemies | space_exp.py:2476-2485 | the survivors, dropped parts and the player's rank follow the whole batch, double awards included |
| SpaceExpCombat.Alive | space_exp.py:2480-2481 | every enemy not killed is kept |
| SpaceExpCombat.ProjectilesHitBase | space_exp.py:2489-2496 | crashed iff a hit follows the one that destroys the base; otherwise the base survives iff the damage sum is below its health |
| SpaceExpCombat.RemoveDestroyedBase | space_exp.py:2179-2185 | the base stays iff its health is positive |
| SpaceExpCombat.EnemyShotsHitPlayer | space_exp.py:2498-2501 | the player's health drops by the total damage, floored at 0 |
| SpaceExpCombat.CollectingOnlyAdds | space_exp.py:2509-2513 | collecting never lowers a material and never touches ship parts |
| SpaceExpCombat.Collect | space_exp.py:2503-2515 | parts are added by their size, then each material drop is added |
| SpaceExpStates.AfterE | space_exp.py:1799-1823 | E docks near the station, opens the outpost menu near an outpost, and leaves either menu; debounced; nothing else changes |
| SpaceExpStates.StationRoundTrip | space_exp.py:1799-1823 | docking and pressing E again returns to the same flow with only the press time moved |
| SpaceExpStates.AfterI | space_exp.py:1825-1837 | I toggles the inventory and remembers the state it came from; debounced |
| SpaceExpStates.InventoryRoundTrip | space_exp.py:1825-1837 | opening and closing the inventory returns to the previous state |
| SpaceExpStates.InventoryDebounce | space_exp.py:1825-1837 | a second press within the cooldown is ignored |
| SpaceExpStates.AfterR | space_exp.py:1877-1898 | R starts target selection iff playing with a hyper drive and recharged, and cancels it when selecting |
| SpaceExpStates.JumpCancel | space_exp.py:1877-1898 | selecting and cancelling restores the flow with zoom off and no target |
| SpaceExpStates.JumpTargetUnderCursor | space_exp.py:2109-2120 | the jump target is the world point under the cursor in the zoomed view |
| SpaceExpStates.AfterClick | space_exp.py:2109-2120 | a click while selecting starts aligning toward the target; otherwise nothing changes |
| SpaceExpStates.AfterAlign | space_exp.py:2622-2642 | the warp starts iff aligning and either aligned within tolerance or out of time |
| SpaceExpStates.AfterWarp | space_exp.py:2644-2653 | the warp ends iff its duration has passed; then playing, zoom and rings off, and the jump time recorded |
| SpaceExpStates.JumpSequence | space_exp.py:1877-2653 | select, click, align and warp bring the ship back to playing at the chosen target |
| SpaceExpStates.JumpCooldownHolds | space_exp.py:1877-1898 | within the recharge-scaled cooldown R does nothing |
| SpaceExpStates.Regenerated | space_exp.py:2655-2660 | health rises by one only when docked, due and below maximum, and never passes the maximum |
| SpaceExpStates.RegenFillsUp | space_exp.py:2655-2660 | n regeneration ticks give `min(max, health + n)` |
| SpaceExpStates.GameFlow.constructor | space_exp.py:1437-1470 | the game starts playing with no jump, no zoom and no game over |
| SpaceExpStates.GameFlow.HandleE | space_exp.py:1799-1823 | the flow becomes `AfterE` of the old flow |
| SpaceExpStates.GameFlow.HandleI | space_exp.py:1825-1837 | the flow becomes `AfterI` of the old flow |
| SpaceExpStates.GameFlow.HandleR | space_exp.py:1877-1898 | the flow becomes `AfterR` of the old flow with the player's engine and recharge rate |
| SpaceExpStates.GameFlow.HandleJumpClick | space_exp.py:2109-2120 | the flow becomes `AfterClick` of the old flow |
| SpaceExpStates.GameFlow.AlignTick | space_exp.py:2622-2642 | while aligning the ship turns one step and the flow follows `AfterAlign`; otherwise nothing changes |
| SpaceExpStates.GameFlow.WarpTick | space_exp.py:2644-2653 | when the warp ends the ship is placed at the target; otherwise it stays |
| SpaceExpStates.GameFlow.RegenTick | space_exp.py:2655-2660 | health follows `Regenerated`, and the timer restarts only when health rose |
| SpaceExpStates.GameFlow.CheckGameOver | space_exp.py:2517-2519 | game over becomes true once the player's health is <= 0 and stays true |

## Left out

- Drawing is not modelled: sprites, fonts, health bars, the ping and the jump rings.
- Input plumbing is not modelled: pygame event polling, key edges and button hit-testing. Commands are explicit parameters, and menu hit-testing is a list of clicked flags.
- The key handlers' acceleration quirk at main.py:664-667 and test.py:561-564 is not modelled. Commands enter through `SetAcceleration`.
- Trigonometric movement is not modelled, because it needs sin, cos, atan2 and sqrt:
  - homing rotation (space_exp.py:940-972, spacinator.py:280-343, main.py:355-379);
  - the player's heading-to-velocity movement (space_exp.py:414-425);
  - planet gravity (space_exp.py:2306-2323);
  - resource magnetism (space_exp.py:2451-2475); this code also holds a source quirk: space_exp.py:2471-2472 calls `add_ship_parts(drop.amount)` on a `ShipPart`, which stores only `size` (space_exp.py:1062-1073), so collecting a part by the magnet would raise AttributeError;
  - mining NPC movement.
- Split directions and distances to the enemy base are given as inputs. Unit directions are a lemma hypothesis.
- Rect handling is simplified:
  - pygame `Rect` integer truncation and screen wrap (spacinator.py:174-184, test.py:202-209) are not modelled;
  - positions are `real`;
  - drag (spacinator.py:176-177) is not modelled.
- TestVariant.Spaceship.Update: the rect's size before and after the rotation are parameters, because the rotated size needs trigonometry. `pos` is the corner after the re-centring at test.py:170, so the final rect can leave the screen; only its centre is promised to stay on screen.
- Sprite-collision geometry is not modelled. Hit lists, touching flags and hit enemy indices are inputs.
- `spawn_initial_*` is not modelled. It repeats the single spawn steps that are modelled.
- The top-level loop is not modelled.
- SpaceExpStates.GameFlow.HandleE and SpaceExpStates.GameFlow.HandleI each model one frame's only accepted press. The game tests the button cooldown once per frame (space_exp.py:1796), so an E and an I in the same frame are both accepted, while calling `HandleE` then `HandleI` at the same `now` refuses the I.
- The asteroid refill `while` loops (space_exp.py:2262-2268) are modelled as one step: `NextRefill` picks the kind of spawn, then `SpawnAsteroid` runs. Those loops terminate only if a spawn eventually succeeds.
- EarlyCommon.GenerateAsteroidPosition: the source draws without bound. The model takes a finite list of draws and returns None when none is clear.
- Spacinator.Arena.RespawnAsteroids, Spacinator.Arena.RespawnEnemies, TestVariant.Field.RespawnAsteroids and TestVariant.Field.RespawnEnemies do not spawn when a draw has no clear spot. They reach the full count only for placeable draws.
- SpaceExpMining.TargetPass: targets are matched by record equality (`t in remaining`, `ReplaceAll`), while the game matches asteroid objects by identity. Two asteroids with identical fields would be treated as one.
- In the early versions, enemies are reduced to what their update uses:
  - in the arena and field worlds, enemies are positions only;
  - enemy missiles in main.py and test.py are not modelled, because they read `time.time`;
  - the early versions' collisions with the player (health loss from asteroids and enemies) are not modelled.
- main.py's `handle_pause_menu_click` (main.py:548-566) is not modelled. Resume returns to playing. The "Weapons:" title does nothing. Every other item calls `switch_weapon` or `buy_weapon`, which `MainGame.Spaceship.SwitchWeapon` and `MainGame.Spaceship.BuyWeapon` model. With the weapon table holding only the launcher at no cost (main.py:54-56), and the ship owning it from the start (main.py:150), the only weapon item re-selects the launcher the ship already holds.
- Explosion radii and colours are not modelled. They are drawing.
- The turn clamp used by homing projectiles (space_exp.py:958-959) is not modelled. The projectiles' motion is out of scope.
- Float rounding at table boundaries is not modelled: rolls are exact `real`s.
