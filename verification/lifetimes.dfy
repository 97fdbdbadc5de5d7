// Frame counters shared by main.py, spacinator.py and test.py: the
// explosion animation and the lifetime of a dropped resource.  The three
// versions write the same `update` bodies; they differ only in the
// resource's lifetime and value per type, which are constructor arguments
// here.  A sprite that has been killed leaves every group and is never
// updated again, so the runs below stop updating once `alive` is false.

module Lifetimes {
  import opened Geometry

  /** Frames per animation stage (`animation_speed`). */
  const AnimationSpeed: int := 4
  /** Stages per explosion: every size category has five radii. */
  const MaxStages: int := 5

  /** An explosion's counters; `alive` turns false when the sprite kills itself. */
  datatype Burst = Burst(frameCount: int, stage: int, alive: bool)

  /** Frames the animation has shown so far. */
  function Elapsed(b: Burst): int
  {
    b.stage * AnimationSpeed + b.frameCount
  }

  predicate Ticking(b: Burst)
  {
    0 <= b.frameCount < AnimationSpeed && 0 <= b.stage
  }

  /**
   * `Explosion.update`: one more frame; after four frames the stage
   * advances, and reaching the fifth stage kills the sprite.
   */
  function BurstStep(b: Burst): (r: Burst)
    ensures Ticking(b) ==> Ticking(r) && Elapsed(r) == Elapsed(b) + 1
    ensures r.alive ==> b.alive
    ensures r.stage == b.stage ==> r.alive == b.alive
    ensures r.stage != b.stage ==> r.stage == b.stage + 1 && (r.alive <==> b.alive && r.stage < MaxStages)
  {
    var frames := b.frameCount + 1;
    if frames >= AnimationSpeed then
      Burst(0, b.stage + 1, b.alive && b.stage + 1 < MaxStages)
    else
      Burst(frames, b.stage, b.alive)
  }

  /** A new explosion, and its counters after `n` frames of group updates. */
  function BurstAfter(n: nat): Burst
  {
    if n == 0 then Burst(0, 0, true)
    else
      var prev := BurstAfter(n - 1);
      if prev.alive then BurstStep(prev) else prev
  }

  /** The counters frame by frame: stage n div 4, frame n mod 4, until frame 20. */
  lemma {:induction false} BurstClock(n: nat)
    ensures n < MaxStages * AnimationSpeed ==> BurstAfter(n) == Burst(n % AnimationSpeed, n / AnimationSpeed, true)
    ensures n >= MaxStages * AnimationSpeed ==> BurstAfter(n) == Burst(0, MaxStages, false)
  {
    if n > 0 {
      BurstClock(n - 1);
    }
  }

  /** An explosion is removed by exactly its 20th update (4 frames times 5 stages). */
  lemma ExplosionLasts20(n: nat)
    ensures BurstAfter(n).alive <==> n < 20
  {
    BurstClock(n);
  }

  /** `Explosion`: only the counters; the radii and colours are drawing. */
  class Explosion {
    var center: Point
    var frameCount: int
    var stage: int
    var alive: bool

    function View(): Burst
      reads this
    {
      Burst(frameCount, stage, alive)
    }

    constructor(center: Point)
      ensures this.center == center && View() == BurstAfter(0)
    {
      this.center := center;
      frameCount := 0;
      stage := 0;
      alive := true;
    }

    method Update()
      modifies this
      ensures View() == BurstStep(old(View())) && center == old(center)
    {
      frameCount := frameCount + 1;
      if frameCount >= AnimationSpeed {
        frameCount := 0;
        stage := stage + 1;
        if stage >= MaxStages {
          alive := false;
        }
      }
    }
  }

  /** A resource's remaining lifetime and whether it is still in its groups. */
  datatype Fuse = Fuse(lifetime: int, alive: bool)

  /** `Resource.update`: one frame less, killed once none are left. */
  function FuseStep(f: Fuse): (r: Fuse)
    ensures r.lifetime == f.lifetime - 1
    ensures r.alive <==> f.alive && f.lifetime > 1
  {
    Fuse(f.lifetime - 1, f.alive && f.lifetime - 1 > 0)
  }

  /** A resource created with `life` frames, after `n` frames of group updates. */
  function FuseAfter(life: int, n: nat): Fuse
  {
    if n == 0 then Fuse(life, true)
    else
      var prev := FuseAfter(life, n - 1);
      if prev.alive then FuseStep(prev) else prev
  }

  /**
   * A resource survives exactly `life` updates when `life` >= 1 (and one
   * update otherwise); its counter drops by one per update until then.
   */
  lemma {:induction false} ResourceExpires(life: int, n: nat)
    ensures FuseAfter(life, n).alive <==> n < MaxInt(life, 1)
    ensures FuseAfter(life, n).lifetime == life - MinInt(n, MaxInt(life, 1))
  {
    if n > 0 {
      ResourceExpires(life, n - 1);
    }
  }

  /**
   * `Resource`: a pickup of type 0..2 worth `(type + 1) * unit` points.
   * main.py and test.py use unit 20 and lifetime 900, spacinator.py unit 10
   * and lifetime 600.  In main.py the update also adds the resource's
   * speed, which is always zero, to its position.
   */
  class Resource {
    var pos: Point
    var kind: int
    var value: int
    var lifetime: int
    var alive: bool

    function View(): Fuse
      reads this
    {
      Fuse(lifetime, alive)
    }

    constructor(pos: Point, kind: int, unit: int, life: int)
      ensures this.pos == pos && this.kind == kind && value == (kind + 1) * unit
      ensures View() == FuseAfter(life, 0)
    {
      this.pos := pos;
      this.kind := kind;
      value := (kind + 1) * unit;
      lifetime := life;
      alive := true;
    }

    method Update()
      modifies this
      ensures View() == FuseStep(old(View()))
      ensures pos == old(pos) && kind == old(kind) && value == old(value)
    {
      lifetime := lifetime - 1;
      if lifetime <= 0 {
        alive := false;
      }
    }
  }
}
