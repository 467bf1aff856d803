/**
 * The crab's motion in BouncingCrab: one clamp-and-reflect step per axis
 * (`stepPhysics`), its n-fold iteration (`simulateBounce`) and the box the
 * crab may move in (`getBounds`). Coordinates are exact reals.
 */
module BouncingCrab {
  import opened Wrappers

  const CRAB_SIZE: real := 450.0
  const SPEED: real := 1.5
  const EDGE_OVERSHOOT: real := 80.0
  const TELEPORT_LEAD_TIME_SEC: int := 6
  const FPS: int := 60

  datatype Vec2 = Vec2(x: real, y: real)
  datatype Bounds = Bounds(minX: real, maxX: real, minY: real, maxY: real)
  datatype Motion = Motion(pos: Vec2, vel: Vec2)

  function Abs(a: real): real { if a < 0.0 then -a else a }

  predicate Ordered(b: Bounds) {
    b.minX <= b.maxX && b.minY <= b.maxY
  }

  predicate Inside(p: Vec2, b: Bounds) {
    b.minX <= p.x <= b.maxX && b.minY <= p.y <= b.maxY
  }

  /**
   * One axis of `stepPhysics`: move by `v`, then clamp to the lower wall
   * heading up, or to the upper wall heading down. The result is inside
   * [lo, hi] when lo <= hi, the speed is kept, and away from the walls
   * nothing but the position changes.
   */
  function StepAxis(p: real, v: real, lo: real, hi: real): (r: (real, real))
    ensures Abs(r.1) == Abs(v)
    ensures p + v <= lo ==> r.0 == lo && r.1 >= 0.0
    ensures lo < p + v && p + v >= hi ==> r.0 == hi && r.1 <= 0.0
    ensures lo < p + v < hi ==> r == (p + v, v)
    ensures lo <= hi ==> lo <= r.0 <= hi
  {
    var q := p + v;
    if q <= lo then (lo, Abs(v))
    else if q >= hi then (hi, -Abs(v))
    else (q, v)
  }

  /** `stepPhysics(pos, vel, bounds)`: the two axes, each on its own. */
  function StepPhysics(m: Motion, b: Bounds): (r: Motion)
    ensures Ordered(b) ==> Inside(r.pos, b)
    ensures Abs(r.vel.x) == Abs(m.vel.x) && Abs(r.vel.y) == Abs(m.vel.y)
    ensures (r.pos.x, r.vel.x) == StepAxis(m.pos.x, m.vel.x, b.minX, b.maxX)
    ensures (r.pos.y, r.vel.y) == StepAxis(m.pos.y, m.vel.y, b.minY, b.maxY)
  {
    var (x, vx) := StepAxis(m.pos.x, m.vel.x, b.minX, b.maxX);
    var (y, vy) := StepAxis(m.pos.y, m.vel.y, b.minY, b.maxY);
    Motion(Vec2(x, y), Vec2(vx, vy))
  }

  /** `n` steps of `StepPhysics`, the specification of `SimulateBounce`. */
  function Simulate(m: Motion, b: Bounds, n: nat): Motion {
    if n == 0 then m else StepPhysics(Simulate(m, b, n - 1), b)
  }

  /** `simulateBounce(startPos, startVel, bounds, steps)` */
  method SimulateBounce(start: Motion, b: Bounds, steps: int) returns (r: Motion)
    ensures r == Simulate(start, b, if steps < 0 then 0 else steps)
    ensures steps <= 0 ==> r == start
    ensures steps > 0 && Ordered(b) ==> Inside(r.pos, b)
  {
    r := start;
    var i := 0;
    while i < steps
      invariant 0 <= i && (steps >= 0 ==> i <= steps) && (steps < 0 ==> i == 0)
      invariant r == Simulate(start, b, i)
      decreases steps - i
    {
      r := StepPhysics(r, b);
      i := i + 1;
    }
  }

  /** Simulating n then k steps is simulating n + k steps. */
  lemma {:induction false} SimulateAdd(m: Motion, b: Bounds, n: nat, k: nat)
    ensures Simulate(Simulate(m, b, n), b, k) == Simulate(m, b, n + k)
    decreases k
  {
    if k > 0 {
      SimulateAdd(m, b, n, k - 1);
    }
  }

  /** Speeds on each axis survive any number of steps. */
  lemma {:induction false} SimulateKeepsSpeed(m: Motion, b: Bounds, n: nat)
    ensures Abs(Simulate(m, b, n).vel.x) == Abs(m.vel.x)
    ensures Abs(Simulate(m, b, n).vel.y) == Abs(m.vel.y)
  {
    if n > 0 {
      SimulateKeepsSpeed(m, b, n - 1);
    }
  }

  /** The container's size as `getBoundingClientRect` reports it. */
  datatype Rect = Rect(width: real, height: real)

  /**
   * `getBounds()`: none without a container; otherwise the crab may reach
   * EDGE_OVERSHOOT past each edge, and a container smaller than the crab
   * collapses an axis to its lower end instead of inverting it.
   */
  function GetBounds(container: Option<Rect>): (r: Option<Bounds>)
    ensures r.Some? <==> container.Some?
    ensures r.Some? ==> Ordered(r.value)
    ensures r.Some? ==> r.value.minX == -EDGE_OVERSHOOT && r.value.minY == -EDGE_OVERSHOOT
    ensures r.Some? ==> r.value.maxX >= container.value.width - CRAB_SIZE + EDGE_OVERSHOOT
    ensures r.Some? ==> r.value.maxY >= container.value.height - CRAB_SIZE + EDGE_OVERSHOOT
    ensures r.Some? && container.value.width >= CRAB_SIZE - 2.0 * EDGE_OVERSHOOT ==>
              r.value.maxX == container.value.width - CRAB_SIZE + EDGE_OVERSHOOT
    ensures r.Some? && container.value.height >= CRAB_SIZE - 2.0 * EDGE_OVERSHOOT ==>
              r.value.maxY == container.value.height - CRAB_SIZE + EDGE_OVERSHOOT
    ensures r.Some? && container.value.width < CRAB_SIZE - 2.0 * EDGE_OVERSHOOT ==> r.value.maxX == r.value.minX
    ensures r.Some? && container.value.height < CRAB_SIZE - 2.0 * EDGE_OVERSHOOT ==> r.value.maxY == r.value.minY
  {
    match container
    case None => None
    case Some(rect) =>
      var rawMaxX := rect.width - CRAB_SIZE + EDGE_OVERSHOOT;
      var rawMaxY := rect.height - CRAB_SIZE + EDGE_OVERSHOOT;
      var minX := -EDGE_OVERSHOOT;
      var minY := -EDGE_OVERSHOOT;
      Some(Bounds(minX, if minX < rawMaxX then rawMaxX else minX,
                  minY, if minY < rawMaxY then rawMaxY else minY))
  }

  /** `posRef` and `velRef` at mount: (50, 50), moving at SPEED on both axes. */
  const InitialMotion: Motion := Motion(Vec2(50.0, 50.0), Vec2(SPEED, SPEED))

  /** However many steps the crab has taken, it moves at SPEED on each axis. */
  lemma CrabKeepsSpeed(b: Bounds, n: nat)
    ensures Abs(Simulate(InitialMotion, b, n).vel.x) == SPEED
    ensures Abs(Simulate(InitialMotion, b, n).vel.y) == SPEED
  {
    SimulateKeepsSpeed(InitialMotion, b, n);
  }

  /** `Math.round(TELEPORT_LEAD_TIME_SEC * FPS)`: the steps simulated ahead. */
  const TELEPORT_STEPS: nat := 360

  /** The motion the crab teleports to: TELEPORT_STEPS steps ahead, inside the box. */
  lemma TeleportInside(m: Motion, container: Rect)
    ensures TELEPORT_STEPS == TELEPORT_LEAD_TIME_SEC * FPS
    ensures Inside(Simulate(m, GetBounds(Some(container)).value, TELEPORT_STEPS).pos,
                   GetBounds(Some(container)).value)
  {
  }
}
