// World management in space_exp.py that concerns where things are: the
// world-to-screen transform with the jump-drive zoom, the viewport
// visibility test, the damped camera and the nearest-target searches.

module SpaceExpWorld {
  import opened Geometry
  import opened SpaceExpEntities

  const ScreenWidth: real := 800.0
  const ScreenHeight: real := 600.0
  const JumpZoom: real := 0.2

  /** The zoom in force: zoomed out while the jump drive picks a target, 1 otherwise. */
  function ZoomFactor(zoomActive: bool): (z: real)
    ensures z > 0.0
  {
    if zoomActive then JumpZoom else 1.0
  }

  /** `world_to_screen_static`: offset by the camera, then scale by the zoom. */
  function WorldToScreenStatic(w: Point, camera: Point, zoom: real): Point
  {
    Point((w.x - camera.x) * zoom, (w.y - camera.y) * zoom)
  }

  /** `world_to_screen`: the static transform with the current zoom. */
  function WorldToScreen(w: Point, camera: Point, zoomActive: bool): Point
  {
    WorldToScreenStatic(w, camera, ZoomFactor(zoomActive))
  }

  /** Undo the transform: the world point shown at a screen point. */
  function ScreenToWorld(s: Point, camera: Point, zoom: real): Point
    requires zoom != 0.0
  {
    Point(s.x / zoom + camera.x, s.y / zoom + camera.y)
  }

  /** For any non-zero zoom the transform loses nothing: it can be inverted exactly. */
  lemma WorldScreenRoundTrip(w: Point, camera: Point, zoom: real)
    requires zoom != 0.0
    ensures ScreenToWorld(WorldToScreenStatic(w, camera, zoom), camera, zoom) == w
    ensures WorldToScreenStatic(ScreenToWorld(w, camera, zoom), camera, zoom) == w
  {
    var s := WorldToScreenStatic(w, camera, zoom);
    assert s.x / zoom == w.x - camera.x;
    assert s.y / zoom == w.y - camera.y;
  }

  /** `is_visible_on_screen`: the object's box, scaled by the zoom, overlaps the screen. */
  predicate IsVisibleOnScreen(obj: Point, radius: real, camera: Point, zoomActive: bool)
  {
    var z := ZoomFactor(zoomActive);
    var s := WorldToScreen(obj, camera, zoomActive);
    s.x + radius * z > 0.0 && s.x - radius * z < ScreenWidth &&
    s.y + radius * z > 0.0 && s.y - radius * z < ScreenHeight
  }

  /**
   * The same test in world units: the object's box overlaps the part of the
   * world the camera shows, which is 800/z by 600/z world units wide (five
   * times larger while the jump drive zooms out).
   */
  lemma {:induction false} VisibleInWorldUnits(obj: Point, radius: real, camera: Point, zoomActive: bool)
    ensures var z := ZoomFactor(zoomActive);
      IsVisibleOnScreen(obj, radius, camera, zoomActive) <==>
        (camera.x - radius < obj.x < camera.x + ScreenWidth / z + radius &&
         camera.y - radius < obj.y < camera.y + ScreenHeight / z + radius)
  {
    var z := ZoomFactor(zoomActive);
    ScaledBelow(obj.x - camera.x + radius, z, 0.0);
    ScaledBelow(obj.x - camera.x - radius, z, ScreenWidth);
    ScaledBelow(obj.y - camera.y + radius, z, 0.0);
    ScaledBelow(obj.y - camera.y - radius, z, ScreenHeight);
    assert (obj.x - camera.x) * z + radius * z == (obj.x - camera.x + radius) * z;
    assert (obj.x - camera.x) * z - radius * z == (obj.x - camera.x - radius) * z;
    assert (obj.y - camera.y) * z + radius * z == (obj.y - camera.y + radius) * z;
    assert (obj.y - camera.y) * z - radius * z == (obj.y - camera.y - radius) * z;
  }

  lemma ScaledBelow(v: real, z: real, bound: real)
    requires z > 0.0
    ensures v * z < bound <==> v < bound / z
    ensures v * z > bound <==> v > bound / z
  {
    assert bound / z * z == bound;
    if v < bound / z {
      assert (bound / z - v) * z > 0.0;
    }
    if v > bound / z {
      assert (v - bound / z) * z > 0.0;
    }
    if v * z < bound {
      assert v * z / z == v;
    }
  }

  // ---------------------------------------------------------------------
  // Camera
  // ---------------------------------------------------------------------

  /** Where the camera wants to be: the top-left corner that centres the player. */
  function CameraTarget(player: Point, zoomActive: bool): Point
  {
    var z := ZoomFactor(zoomActive);
    Point(player.x - ScreenWidth / z / 2.0, player.y - ScreenHeight / z / 2.0)
  }

  /**
   * One frame of the damped camera: move a tenth of the way to the target.
   * What is left of the gap is nine tenths of it, on the same side, so the
   * camera never overshoots.
   */
  function CameraStep(camera: Point, player: Point, zoomActive: bool): (r: Point)
    ensures var t := CameraTarget(player, zoomActive);
      r.x - t.x == 0.9 * (camera.x - t.x) && r.y - t.y == 0.9 * (camera.y - t.y)
  {
    var t := CameraTarget(player, zoomActive);
    Point(camera.x + (t.x - camera.x) / 10.0, camera.y + (t.y - camera.y) / 10.0)
  }

  function CameraAfter(camera: Point, player: Point, zoomActive: bool, n: nat): Point
    decreases n
  {
    if n == 0 then camera else CameraAfter(CameraStep(camera, player, zoomActive), player, zoomActive, n - 1)
  }

  /** While the player holds still, n frames leave 0.9^n of the camera's gap. */
  lemma {:induction false} CameraConverges(camera: Point, player: Point, zoomActive: bool, n: nat)
    ensures var t := CameraTarget(player, zoomActive);
      var c := CameraAfter(camera, player, zoomActive, n);
      c.x - t.x == Pow(0.9, n) * (camera.x - t.x) && c.y - t.y == Pow(0.9, n) * (camera.y - t.y)
    decreases n
  {
    if n > 0 {
      CameraConverges(CameraStep(camera, player, zoomActive), player, zoomActive, n - 1);
    }
  }

  // ---------------------------------------------------------------------
  // Nearest-target searches
  // ---------------------------------------------------------------------

  /**
   * `MiningNPC.find_nearest_asteroid`: the first asteroid at the least
   * distance from the NPC, or none when its zone is empty.
   */
  method FindNearestAsteroid(npc: Point, asteroids: seq<Asteroid>) returns (nearest: Option<nat>)
    ensures nearest.None? <==> asteroids == []
    ensures nearest.Some? ==> nearest.value < |asteroids|
    ensures nearest.Some? ==> forall j :: 0 <= j < |asteroids| ==>
      Dist2(npc, asteroids[nearest.value].pos) <= Dist2(npc, asteroids[j].pos)
    ensures nearest.Some? ==> forall j :: 0 <= j < nearest.value ==>
      Dist2(npc, asteroids[nearest.value].pos) < Dist2(npc, asteroids[j].pos)
  {
    nearest := None;
    var best := 0.0;
    var i := 0;
    while i < |asteroids|
      invariant 0 <= i <= |asteroids|
      invariant nearest.None? <==> i == 0
      invariant nearest.Some? ==> nearest.value < i && best == Dist2(npc, asteroids[nearest.value].pos)
      invariant nearest.Some? ==> forall j :: 0 <= j < i ==> best <= Dist2(npc, asteroids[j].pos)
      invariant nearest.Some? ==> forall j :: 0 <= j < nearest.value ==> best < Dist2(npc, asteroids[j].pos)
    {
      var d := Dist2(npc, asteroids[i].pos);
      if nearest.None? || d < best {
        nearest, best := Some(i), d;
      }
      i := i + 1;
    }
  }

  datatype Target = NoTarget | EnemyTarget(index: nat) | BaseTarget

  /** Within the optional range (inclusive); no range means any distance. */
  predicate InRange(from: Point, at: Point, maxRange: Option<real>)
  {
    maxRange.None? || WithinOrOn(from, at, maxRange.value)
  }

  /**
   * `find_nearest_enemy_or_base_to_point`: the nearest enemy in range (the
   * first one on ties); the base replaces it only when the base is in range
   * and strictly nearer.
   */
  method FindNearestEnemyOrBase(p: Point, enemies: seq<Enemy>, base: Option<EnemyBase>, maxRange: Option<real>)
    returns (t: Target)
    ensures t.EnemyTarget? ==>
      t.index < |enemies| && InRange(p, enemies[t.index].pos, maxRange) &&
      (forall j :: 0 <= j < |enemies| && InRange(p, enemies[j].pos, maxRange) ==>
        Dist2(p, enemies[t.index].pos) <= Dist2(p, enemies[j].pos)) &&
      (forall j :: 0 <= j < t.index && InRange(p, enemies[j].pos, maxRange) ==>
        Dist2(p, enemies[t.index].pos) < Dist2(p, enemies[j].pos)) &&
      (base.Some? && InRange(p, base.value.pos, maxRange) ==>
        Dist2(p, enemies[t.index].pos) <= Dist2(p, base.value.pos))
    ensures t.BaseTarget? ==>
      base.Some? && InRange(p, base.value.pos, maxRange) &&
      forall j :: 0 <= j < |enemies| && InRange(p, enemies[j].pos, maxRange) ==>
        Dist2(p, base.value.pos) < Dist2(p, enemies[j].pos)
    ensures t.NoTarget? ==>
      (forall j :: 0 <= j < |enemies| ==> !InRange(p, enemies[j].pos, maxRange)) &&
      (base.None? || !InRange(p, base.value.pos, maxRange))
  {
    t := NoTarget;
    var best := 0.0;
    var i := 0;
    while i < |enemies|
      invariant 0 <= i <= |enemies|
      invariant t.BaseTarget? == false
      invariant t.NoTarget? ==> forall j :: 0 <= j < i ==> !InRange(p, enemies[j].pos, maxRange)
      invariant t.EnemyTarget? ==>
        t.index < i && InRange(p, enemies[t.index].pos, maxRange) &&
        best == Dist2(p, enemies[t.index].pos) &&
        (forall j :: 0 <= j < i && InRange(p, enemies[j].pos, maxRange) ==> best <= Dist2(p, enemies[j].pos)) &&
        (forall j :: 0 <= j < t.index && InRange(p, enemies[j].pos, maxRange) ==> best < Dist2(p, enemies[j].pos))
    {
      var d := Dist2(p, enemies[i].pos);
      if InRange(p, enemies[i].pos, maxRange) && (t.NoTarget? || d < best) {
        t, best := EnemyTarget(i), d;
      }
      i := i + 1;
    }
    if base.Some? {
      var d := Dist2(p, base.value.pos);
      if InRange(p, base.value.pos, maxRange) && (t.NoTarget? || d < best) {
        t := BaseTarget;
      }
    }
  }
}
