// The game-state flow of space_exp.py's `GameManager`: entering and leaving
// the station and the trading outpost with E, the inventory toggle on I,
// the jump-drive sequence (R to pick a target, a click to choose it, the
// alignment and the warp), health regeneration while docked, and game over.
// Key-edge detection and button hit-testing are input plumbing: each method
// here is one accepted key press, click or frame.

module SpaceExpStates {
  import opened Geometry
  import opened SpaceExpWorld
  import opened SpaceExpPlayer

  const ButtonCooldown: int := 200
  const StationInteractDistance: real := 100.0
  const OutpostMargin: real := 50.0
  const JumpCooldown: real := 10000.0
  const AlignmentDuration: int := 1500
  const WarpDuration: int := 2000
  const AlignTolerance: real := 2.0
  /** 1000 ms times one point of health over five points per second. */
  const RegenInterval: int := 200
  const RegenIncrement: int := 1

  datatype GameState =
    | Playing | PausedAtStation | Inventory
    | EconomyShop | ShipUpgrading | ShipShop | MiningToolsMenu | EnergyCoreMenu
    | AntennaMenu | WeaponsMenu | PropulsionMenu
    | JumpSelectTarget | JumpAligning | JumpWarp
    | TradingOutpostMenu

  /** The station and outpost menus, where the ship is docked and heals. */
  predicate Docked(s: GameState)
  {
    s.PausedAtStation? || s.EconomyShop? || s.ShipUpgrading? || s.ShipShop? ||
    s.MiningToolsMenu? || s.EnergyCoreMenu? || s.AntennaMenu? || s.WeaponsMenu? ||
    s.PropulsionMenu? || s.TradingOutpostMenu?
  }

  datatype Outpost = Outpost(pos: Point, size: real)

  /**
   * The flow fields of the game manager: the state and the state to return
   * to from the inventory, the time of the last accepted button, and the
   * jump drive's zoom flag, target, phase start times, rings and the time
   * of the last completed jump.
   */
  datatype Flow = Flow(
    state: GameState, previous: GameState, lastPress: int,
    zoom: bool, target: Option<Point>, alignStart: int, warpStart: int, rings: bool, lastJump: int)

  predicate Jumping(s: GameState)
  {
    s.JumpAligning? || s.JumpWarp?
  }

  /**
   * The inventory never returns to itself, and the alignment and the warp,
   * including one the inventory was opened from, always know where they
   * are going.
   */
  predicate FlowOk(f: Flow)
  {
    !f.previous.Inventory? &&
    ((Jumping(f.state) || (f.state.Inventory? && Jumping(f.previous))) ==> f.target.Some?)
  }

  /** A button or key is accepted only when more than 200 ms have passed since the last one. */
  predicate CanPress(f: Flow, now: int)
  {
    now - f.lastPress > ButtonCooldown
  }

  predicate NearOutpost(player: Point, outpost: Option<Outpost>)
  {
    outpost.Some? && Within(player, outpost.value.pos, outpost.value.size + OutpostMargin)
  }

  // ---------------------------------------------------------------------
  // E: station and trading outpost
  // ---------------------------------------------------------------------

  /**
   * E while playing docks at the station when strictly within 100 units,
   * otherwise at the outpost when strictly within its size plus 50; E in the
   * station's main menu or the outpost menu returns to playing.  Any other
   * state ignores E, and so does a press inside the button cooldown.
   */
  function AfterE(f: Flow, now: int, player: Point, station: Point, outpost: Option<Outpost>): (r: Flow)
    ensures FlowOk(f) ==> FlowOk(r)
    ensures r.state == f.state ==> r == f
    ensures r.state != f.state ==> CanPress(f, now) && r == f.(state := r.state, lastPress := now)
    ensures (r.state.PausedAtStation? && !f.state.PausedAtStation?) <==>
      CanPress(f, now) && f.state.Playing? && Within(player, station, StationInteractDistance)
    ensures (r.state.TradingOutpostMenu? && !f.state.TradingOutpostMenu?) <==>
      CanPress(f, now) && f.state.Playing? && !Within(player, station, StationInteractDistance) &&
      NearOutpost(player, outpost)
    ensures (r.state.Playing? && !f.state.Playing?) <==>
      CanPress(f, now) && (f.state.PausedAtStation? || f.state.TradingOutpostMenu?)
  {
    if !CanPress(f, now) then f
    else if f.state.Playing? then
      (if Within(player, station, StationInteractDistance) then f.(state := PausedAtStation, lastPress := now)
       else if NearOutpost(player, outpost) then f.(state := TradingOutpostMenu, lastPress := now)
       else f)
    else if f.state.PausedAtStation? || f.state.TradingOutpostMenu? then f.(state := Playing, lastPress := now)
    else f
  }

  /** Docking at the station and pressing E again after the cooldown puts the game back where it was. */
  lemma StationRoundTrip(f: Flow, t1: int, t2: int, player: Point, station: Point, outpost: Option<Outpost>)
    requires f.state.Playing? && Within(player, station, StationInteractDistance)
    requires CanPress(f, t1) && t2 - t1 > ButtonCooldown
    ensures AfterE(f, t1, player, station, outpost).state == PausedAtStation
    ensures AfterE(AfterE(f, t1, player, station, outpost), t2, player, station, outpost) == f.(lastPress := t2)
  {
  }

  // ---------------------------------------------------------------------
  // I: inventory
  // ---------------------------------------------------------------------

  /** I opens the inventory from any state, remembering that state, and closes it back to the remembered one. */
  function AfterI(f: Flow, now: int): (r: Flow)
    ensures FlowOk(f) ==> FlowOk(r)
    ensures !CanPress(f, now) ==> r == f
    ensures CanPress(f, now) ==> r.lastPress == now
    ensures CanPress(f, now) && FlowOk(f) ==> (r.state.Inventory? <==> !f.state.Inventory?)
    ensures CanPress(f, now) && !f.state.Inventory? ==> r.previous == f.state
    ensures r.(state := f.state, previous := f.previous, lastPress := f.lastPress) == f
  {
    if !CanPress(f, now) then f
    else if f.state.Inventory? then f.(state := f.previous, lastPress := now)
    else f.(state := Inventory, previous := f.state, lastPress := now)
  }

  /** Opening and then closing the inventory returns to the state it was opened from, whatever that was. */
  lemma InventoryRoundTrip(f: Flow, t1: int, t2: int)
    requires !f.state.Inventory? && CanPress(f, t1) && t2 - t1 > ButtonCooldown
    ensures AfterI(f, t1).state == Inventory
    ensures AfterI(AfterI(f, t1), t2) == f.(previous := f.state, lastPress := t2)
  {
  }

  /** A second I within the cooldown is ignored: the inventory stays open. */
  lemma InventoryDebounce(f: Flow, t1: int, t2: int)
    requires !f.state.Inventory? && CanPress(f, t1) && t2 - t1 <= ButtonCooldown
    ensures AfterI(AfterI(f, t1), t2).state == Inventory
  {
  }

  // ---------------------------------------------------------------------
  // R and the jump drive
  // ---------------------------------------------------------------------

  /** The jump drive has cooled down: more than 10000 ms divided by the recharge rate since the last jump. */
  predicate JumpReady(f: Flow, now: int, recharge: real)
    requires recharge > 0.0
  {
    (now - f.lastJump) as real > JumpCooldown / recharge
  }

  /**
   * R while playing with the Hyper Drive fitted and the drive cooled down
   * opens target selection, zoomed out; R during target selection cancels
   * it, dropping the zoom and the target.  Nothing else reacts to R.
   */
  function AfterR(f: Flow, now: int, engine: string, recharge: real): (r: Flow)
    requires recharge > 0.0
    ensures FlowOk(f) ==> FlowOk(r)
    ensures r.state.JumpSelectTarget? && !f.state.JumpSelectTarget? <==>
      CanPress(f, now) && f.state.Playing? && engine == "Hyper Drive" && JumpReady(f, now, recharge)
    ensures r.state.JumpSelectTarget? && !f.state.JumpSelectTarget? ==> r == f.(state := JumpSelectTarget, zoom := true, lastPress := now)
    ensures f.state.JumpSelectTarget? && CanPress(f, now) ==> r == f.(state := Playing, zoom := false, target := None, lastPress := now)
    ensures !CanPress(f, now) || !(f.state.Playing? || f.state.JumpSelectTarget?) ==> r == f
  {
    if !CanPress(f, now) then f
    else if f.state.Playing? && engine == "Hyper Drive" then
      (if JumpReady(f, now, recharge) then f.(state := JumpSelectTarget, zoom := true, lastPress := now) else f)
    else if f.state.JumpSelectTarget? then f.(state := Playing, zoom := false, target := None, lastPress := now)
    else f
  }

  /** Opening the target selection and cancelling it leaves the game playing, unzoomed and without a target. */
  lemma JumpCancel(f: Flow, t1: int, t2: int, recharge: real)
    requires recharge > 0.0 && f.state.Playing? && CanPress(f, t1) && JumpReady(f, t1, recharge)
    requires t2 - t1 > ButtonCooldown
    ensures var g := AfterR(AfterR(f, t1, "Hyper Drive", recharge), t2, "Hyper Drive", recharge);
      g == f.(zoom := false, target := None, lastPress := t2)
  {
  }

  /** The world point under the cursor while zoomed out on the player: the screen centre is the player. */
  function JumpTarget(player: Point, mouse: Point): Point
  {
    Point(player.x + (mouse.x - ScreenWidth / 2.0) / JumpZoom, player.y + (mouse.y - ScreenHeight / 2.0) / JumpZoom)
  }

  /** The chosen target is the world point the zoomed-out, settled camera shows under the cursor. */
  lemma JumpTargetUnderCursor(player: Point, mouse: Point)
    ensures JumpTarget(player, mouse) == ScreenToWorld(mouse, CameraTarget(player, true), JumpZoom)
    ensures WorldToScreen(JumpTarget(player, mouse), CameraTarget(player, true), true) == mouse
  {
    var c := CameraTarget(player, true);
    assert c == Point(player.x - 2000.0, player.y - 1500.0);
    WorldScreenRoundTrip(mouse, c, JumpZoom);
  }

  /**
   * A click during target selection fixes the target and starts the
   * alignment, zoomed back in.  The click is not subject to the button
   * cooldown.
   */
  function AfterClick(f: Flow, now: int, player: Point, mouse: Point): (r: Flow)
    ensures FlowOk(f) ==> FlowOk(r)
    ensures f.state.JumpSelectTarget? ==>
      r == f.(state := JumpAligning, target := Some(JumpTarget(player, mouse)), alignStart := now,
              zoom := false, lastPress := now)
    ensures !f.state.JumpSelectTarget? ==> r == f
  {
    if f.state.JumpSelectTarget? then
      f.(state := JumpAligning, target := Some(JumpTarget(player, mouse)), alignStart := now,
         zoom := false, lastPress := now)
    else f
  }

  /**
   * The end of an alignment frame: when the remaining turn is under 2
   * degrees either way, or 1500 ms have passed since the click, the warp
   * starts and its rings appear.
   */
  function AfterAlign(f: Flow, now: int, gap: real): (r: Flow)
    ensures FlowOk(f) ==> FlowOk(r)
    ensures r.state.JumpWarp? && !f.state.JumpWarp? <==>
      f.state.JumpAligning? && (-AlignTolerance < gap < AlignTolerance || now - f.alignStart >= AlignmentDuration)
    ensures r != f ==> r == f.(state := JumpWarp, rings := true, warpStart := now)
  {
    if f.state.JumpAligning? && (-AlignTolerance < gap < AlignTolerance || now - f.alignStart >= AlignmentDuration) then
      f.(state := JumpWarp, rings := true, warpStart := now)
    else f
  }

  /** After 2000 ms of warp the ship is at the target, playing again, and the cooldown restarts. */
  function AfterWarp(f: Flow, now: int): (r: Flow)
    ensures FlowOk(f) ==> FlowOk(r)
    ensures r != f <==> f.state.JumpWarp? && now - f.warpStart >= WarpDuration
    ensures r != f ==> r == f.(state := Playing, zoom := false, rings := false, lastJump := now)
  {
    if f.state.JumpWarp? && now - f.warpStart >= WarpDuration then
      f.(state := Playing, zoom := false, rings := false, lastJump := now)
    else f
  }

  /**
   * A whole jump: R, a click, one alignment frame that is on target and a
   * warp frame 2000 ms later take the game from playing back to playing,
   * with the target the click chose and the jump cooldown restarted.
   */
  lemma {:induction false} JumpSequence(f: Flow, recharge: real, player: Point, mouse: Point,
                                        t1: int, t2: int, t3: int, t4: int)
    requires recharge > 0.0 && f.state.Playing? && CanPress(f, t1) && JumpReady(f, t1, recharge)
    requires t4 - t3 >= WarpDuration
    ensures var g := AfterWarp(AfterAlign(AfterClick(AfterR(f, t1, "Hyper Drive", recharge), t2, player, mouse), t3, 0.0), t4);
      g.state.Playing? && !g.zoom && !g.rings && g.lastJump == t4 && g.target == Some(JumpTarget(player, mouse))
  {
    var f1 := AfterR(f, t1, "Hyper Drive", recharge);
    assert f1.state == JumpSelectTarget;
    var f2 := AfterClick(f1, t2, player, mouse);
    var f3 := AfterAlign(f2, t3, 0.0);
    assert f3.state == JumpWarp && f3.warpStart == t3;
  }

  /** Straight after a jump, R is refused until the cooldown has passed again. */
  lemma JumpCooldownHolds(f: Flow, now: int, recharge: real)
    requires recharge > 0.0 && f.state.Playing? && 0 <= now - f.lastJump && (now - f.lastJump) as real <= JumpCooldown / recharge
    ensures AfterR(f, now, "Hyper Drive", recharge) == f
  {
  }

  // ---------------------------------------------------------------------
  // Regeneration
  // ---------------------------------------------------------------------

  /**
   * The health after a regeneration check: one point more, capped at the
   * maximum, when docked, hurt and more than 200 ms after the last point.
   */
  function Regenerated(health: int, maxHealth: int, docked: bool, due: bool): (h: int)
    ensures health <= maxHealth ==> health <= h <= maxHealth
    ensures h != health ==> docked && due && health < maxHealth && h == health + RegenIncrement
  {
    if docked && health < maxHealth && due then MinInt(maxHealth, health + RegenIncrement) else health
  }

  /** Enough regeneration checks heal the ship completely: each accepted one adds a point. */
  function RegeneratedTimes(health: int, maxHealth: int, n: nat): int
  {
    if n == 0 then health else Regenerated(RegeneratedTimes(health, maxHealth, n - 1), maxHealth, true, true)
  }

  lemma {:induction false} RegenFillsUp(health: int, maxHealth: int, n: nat)
    requires health <= maxHealth
    ensures RegeneratedTimes(health, maxHealth, n) == MinInt(maxHealth, health + n)
  {
    if n > 0 {
      RegenFillsUp(health, maxHealth, n - 1);
    }
  }

  // ---------------------------------------------------------------------
  // The game manager's flow fields
  // ---------------------------------------------------------------------

  class GameFlow {
    var state: GameState
    var previous: GameState
    var lastPress: int
    var zoom: bool
    var target: Option<Point>
    var alignStart: int
    var warpStart: int
    var rings: bool
    var lastJump: int
    var lastRegen: int
    var gameOver: bool

    function View(): Flow
      reads this
    {
      Flow(state, previous, lastPress, zoom, target, alignStart, warpStart, rings, lastJump)
    }

    ghost predicate Valid()
      reads this
    {
      FlowOk(View())
    }

    /** The manager at start-up: playing, nothing pressed yet, no jump made. */
    constructor (now: int)
      ensures Valid()
      ensures View() == Flow(Playing, Playing, 0, false, None, 0, 0, false, 0)
      ensures lastRegen == now && !gameOver
    {
      state, previous, lastPress := Playing, Playing, 0;
      zoom, target, alignStart, warpStart, rings, lastJump := false, None, 0, 0, false, 0;
      lastRegen, gameOver := now, false;
    }

    /** An accepted E press. */
    method HandleE(now: int, player: Point, station: Point, outpost: Option<Outpost>)
      requires Valid()
      modifies this`state, this`lastPress
      ensures Valid()
      ensures View() == AfterE(old(View()), now, player, station, outpost)
    {
      if now - lastPress > ButtonCooldown {
        if state == Playing {
          if Within(player, station, StationInteractDistance) {
            state := PausedAtStation;
            lastPress := now;
          } else if outpost.Some? && Within(player, outpost.value.pos, outpost.value.size + OutpostMargin) {
            state := TradingOutpostMenu;
            lastPress := now;
          }
        } else if state == PausedAtStation {
          state := Playing;
          lastPress := now;
        } else if state == TradingOutpostMenu {
          state := Playing;
          lastPress := now;
        }
      }
    }

    /** An I press. */
    method HandleI(now: int)
      requires Valid()
      modifies this`state, this`previous, this`lastPress
      ensures Valid()
      ensures View() == AfterI(old(View()), now)
    {
      if now - lastPress > ButtonCooldown {
        if state == Inventory {
          state := previous;
          lastPress := now;
        } else {
          previous := state;
          state := Inventory;
          lastPress := now;
        }
      }
    }

    /** An R press; the engine and recharge rate are the player's. */
    method HandleR(now: int, p: Player)
      requires Valid() && p.Valid()
      modifies this`state, this`zoom, this`target, this`lastPress
      ensures Valid()
      ensures p.rechargeRate > 0.0 && View() == AfterR(old(View()), now, p.engine, p.rechargeRate)
    {
      if now - lastPress > ButtonCooldown {
        if state == Playing && p.engine == "Hyper Drive" {
          var effective := JumpCooldown / p.rechargeRate;
          if (now - lastJump) as real > effective {
            state := JumpSelectTarget;
            zoom := true;
            lastPress := now;
          }
        } else if state == JumpSelectTarget {
          state := Playing;
          zoom := false;
          target := None;
          lastPress := now;
        }
      }
    }

    /** A mouse click during target selection, with the ship at `player`. */
    method HandleJumpClick(now: int, player: Point, mouse: Point)
      requires Valid()
      modifies this`state, this`target, this`alignStart, this`zoom, this`lastPress
      ensures Valid()
      ensures View() == AfterClick(old(View()), now, player, mouse)
    {
      if state == JumpSelectTarget {
        target := Some(Point(player.x + (mouse.x - ScreenWidth / 2.0) / JumpZoom,
                             player.y + (mouse.y - ScreenHeight / 2.0) / JumpZoom));
        state := JumpAligning;
        alignStart := now;
        zoom := false;
        lastPress := now;
      }
    }

    /**
     * One alignment frame: the ship turns towards `targetAngle` (the heading
     * of the target, which needs `atan2`), then the remaining turn decides
     * whether the warp starts.
     */
    method AlignTick(now: int, p: Player, targetAngle: real)
      requires Valid() && p.Valid() && 0.0 <= targetAngle < 360.0
      modifies this`state, this`rings, this`warpStart, p`angle
      ensures Valid() && p.Valid()
      ensures old(state) == JumpAligning ==>
        p.angle == AlignStep(old(p.angle), targetAngle) &&
        View() == AfterAlign(old(View()), now, TurnGap(p.angle, targetAngle))
      ensures old(state) != JumpAligning ==> View() == old(View()) && p.angle == old(p.angle)
    {
      if state == JumpAligning {
        p.Align(targetAngle);
        var diff := TurnGap(p.angle, targetAngle);
        if (-AlignTolerance < diff < AlignTolerance) || now - alignStart >= AlignmentDuration {
          state := JumpWarp;
          rings := true;
          warpStart := now;
        }
      }
    }

    /** One warp frame: once the warp has run its course the ship appears at the target. */
    method WarpTick(now: int, p: Player)
      requires Valid() && p.Valid()
      modifies this`state, this`zoom, this`rings, this`lastJump, p`x, p`y
      ensures Valid() && p.Valid()
      ensures View() == AfterWarp(old(View()), now)
      ensures View() != old(View()) ==> p.x == old(target).value.x && p.y == old(target).value.y
      ensures View() == old(View()) ==> p.x == old(p.x) && p.y == old(p.y)
    {
      if state == JumpWarp {
        if now - warpStart >= WarpDuration {
          p.x := target.value.x;
          p.y := target.value.y;
          state := Playing;
          zoom := false;
          rings := false;
          lastJump := now;
        }
      }
    }

    /** The regeneration check of each frame. */
    method RegenTick(now: int, p: Player)
      requires p.Valid()
      modifies this`lastRegen, p`health
      ensures p.Valid()
      ensures p.health == Regenerated(old(p.health), p.maxHealth, Docked(state), now - old(lastRegen) > RegenInterval)
      ensures lastRegen == (if p.health != old(p.health) then now else old(lastRegen))
    {
      if Docked(state) {
        if p.health < p.maxHealth {
          if now - lastRegen > RegenInterval {
            p.health := MinInt(p.maxHealth, p.health + RegenIncrement);
            lastRegen := now;
          }
        }
      }
    }

    /** Game over is raised once the player's health is gone, and never lowered. */
    method CheckGameOver(p: Player)
      modifies this`gameOver
      ensures gameOver == (old(gameOver) || p.health <= 0)
    {
      if p.health <= 0 {
        gameOver := true;
      }
    }
  }
}
