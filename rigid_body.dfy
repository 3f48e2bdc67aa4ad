/**
 * Rigid bodies: the record built by `build_rigid_body` and its two specialisations, force
 * and torque accumulation (`apply_force`, `apply_gravity`) and the once-per-tick integrator
 * (`update_body`). All arithmetic is exact (`real`).
 */
module RigidBodies {
  import opened Wrappers
  import opened Geometry

  const AIR_FRICTION: real := 0.01
  const GRAVITY: real := 0.1

  /** Value of one body: mass, moment of inertia, position, velocity, accumulated force,
      orientation in degrees, angular velocity and accumulated torque. */
  datatype BodyState = BodyState(
    m: real, inertia: real,
    x: real, y: real, vX: real, vY: real, fX: real, fY: real,
    angle: real, vAngle: real, torque: real)
  {
    function Center(): Vec2 { Vec2(x, y) }
  }

  /** No motion and nothing accumulated. */
  predicate AtRest(b: BodyState) {
    b.vX == 0.0 && b.vY == 0.0 && b.vAngle == 0.0 &&
    b.fX == 0.0 && b.fY == 0.0 && b.torque == 0.0
  }

  /** Both divisors of the integrator are positive. */
  predicate Massive(b: BodyState) { b.m > 0.0 && b.inertia > 0.0 }

  /** `build_rigid_body`: the default record (unit mass, no inertia, at rest) with the
      position and orientation every caller overrides. */
  function BuildRigidBody(x: real, y: real, angle: real): (b: BodyState)
    ensures AtRest(b) && b.m == 1.0 && b.inertia == 0.0
    ensures b.Center() == Vec2(x, y) && b.angle == angle
  {
    BodyState(1.0, 0.0, x, y, 0.0, 0.0, 0.0, 0.0, angle, 0.0, 0.0)
  }

  /** `build_point_mass`: a point mass is given inertia 1, not 0, so that integrating it never
      divides by zero. */
  function BuildPointMass(mass: real, x: real, y: real): (b: BodyState)
    ensures AtRest(b) && b.m == mass && b.inertia == 1.0
    ensures b.Center() == Vec2(x, y) && b.angle == 0.0
    ensures mass > 0.0 ==> Massive(b)
  {
    BuildRigidBody(x, y, 0.0).(m := mass, inertia := 1.0)
  }

  /** `build_rod_mass`: a uniform rod of the given length turning about its centre. */
  function BuildRodMass(mass: real, length: real, x: real, y: real, angle: real): (b: BodyState)
    ensures AtRest(b) && b.m == mass
    ensures b.inertia * 12.0 == mass * (length * length)
    ensures b.Center() == Vec2(x, y) && b.angle == angle
  {
    BuildRigidBody(x, y, angle).(m := mass, inertia := mass * length * length / 12.0)
  }

  /**
   * `apply_force`: adds `f` to the accumulated force and, when a world-space point of
   * application is given, the torque of `f` about the centre. Nothing else changes.
   */
  function WithForce(b: BodyState, f: Vec2, at: Option<Vec2>): (r: BodyState)
    ensures r.fX == b.fX + f.x && r.fY == b.fY + f.y
    ensures at.None? ==> r.torque == b.torque
    ensures at.Some? ==> r.torque == b.torque + Cross(at.value.Minus(b.Center()), f)
    ensures r.(fX := b.fX, fY := b.fY, torque := b.torque) == b
  {
    var pushed := b.(fX := b.fX + f.x, fY := b.fY + f.y);
    match at
    case None => pushed
    case Some(p) => pushed.(torque := b.torque + (p.x - b.x) * f.y - (p.y - b.y) * f.x)
  }

  /** Forces accumulate: applying two of them in either order gives the same body. */
  lemma ForcesCommute(b: BodyState, f: Vec2, p: Option<Vec2>, g: Vec2, q: Option<Vec2>)
    ensures WithForce(WithForce(b, f, p), g, q) == WithForce(WithForce(b, g, q), f, p)
  {
  }

  /** `apply_gravity`: a downward force of `GRAVITY` per unit of mass, at the centre. */
  function WithGravity(b: BodyState): (r: BodyState)
    ensures r.fY == b.fY - GRAVITY * b.m
    ensures r.(fY := b.fY) == b
  {
    WithForce(b, Vec2(0.0, -GRAVITY * b.m), None)
  }

  /**
   * `update_body`: one semi-implicit Euler step with linear and angular damping. Afterwards
   * the accumulators are empty, the orientation lies in [0, 360), the velocity gained beyond
   * damping is force over mass, and the position has moved by the new velocity.
   */
  function Integrated(b: BodyState): (r: BodyState)
    requires b.m != 0.0 && b.inertia != 0.0
    ensures r.fX == 0.0 && r.fY == 0.0 && r.torque == 0.0
    ensures 0.0 <= r.angle < 360.0
    ensures r.m == b.m && r.inertia == b.inertia
    ensures r.vX - b.vX * (1.0 - AIR_FRICTION) == b.fX / b.m
    ensures r.vY - b.vY * (1.0 - AIR_FRICTION) == b.fY / b.m
    ensures r.vAngle - b.vAngle * (1.0 - AIR_FRICTION) == b.torque / b.inertia
    ensures r.Center() == b.Center().Plus(Vec2(r.vX, r.vY))
    ensures r.angle == WrapDegrees(b.angle + r.vAngle)
  {
    var vX := b.vX * (1.0 - AIR_FRICTION) + b.fX / b.m;
    var vY := b.vY * (1.0 - AIR_FRICTION) + b.fY / b.m;
    var vAngle := b.vAngle * (1.0 - AIR_FRICTION) + b.torque / b.inertia;
    BodyState(b.m, b.inertia, b.x + vX, b.y + vY, vX, vY, 0.0, 0.0,
              WrapDegrees(b.angle + vAngle), vAngle, 0.0)
  }

  /** A body on which nothing acts loses exactly the damped fraction of its speed per tick. */
  lemma FreeBodyIsDamped(b: BodyState)
    requires b.m != 0.0 && b.inertia != 0.0
    requires b.fX == 0.0 && b.fY == 0.0 && b.torque == 0.0
    ensures NormSq(Vec2(Integrated(b).vX, Integrated(b).vY))
         == 0.9801 * NormSq(Vec2(b.vX, b.vY))
    ensures Integrated(b).vAngle == 0.99 * b.vAngle
  {
    var r := Integrated(b);
    assert r.vX == 0.99 * b.vX && r.vY == 0.99 * b.vY;
  }

  /** Integrating after gravity alone, a body at rest starts to fall. */
  lemma RestingBodyFalls(b: BodyState)
    requires Massive(b) && AtRest(b)
    ensures Integrated(WithGravity(b)).vY == -GRAVITY
    ensures Integrated(WithGravity(b)).y == b.y - GRAVITY
    ensures Integrated(WithGravity(b)).x == b.x
  {
    var g := WithGravity(b);
    assert g.fY / g.m == -GRAVITY;
  }

  /** A body whose fields `apply_force` and `update_body` change in place. Mass and inertia
      never change after construction. */
  class RigidBody {
    const m: real
    const inertia: real
    var x: real
    var y: real
    var vX: real
    var vY: real
    var fX: real
    var fY: real
    var angle: real
    var vAngle: real
    var torque: real

    /** The body's current value. */
    function State(): BodyState
      reads this
    {
      BodyState(m, inertia, x, y, vX, vY, fX, fY, angle, vAngle, torque)
    }

    constructor (s: BodyState)
      ensures State() == s
    {
      m, inertia := s.m, s.inertia;
      x, y, vX, vY := s.x, s.y, s.vX, s.vY;
      fX, fY := s.fX, s.fY;
      angle, vAngle, torque := s.angle, s.vAngle, s.torque;
    }

    /** `apply_force`. */
    method ApplyForce(f: Vec2, at: Option<Vec2>)
      modifies this
      ensures State() == WithForce(old(State()), f, at)
    {
      fX := fX + f.x;
      fY := fY + f.y;
      if at.Some? {
        torque := torque + (at.value.x - x) * f.y - (at.value.y - y) * f.x;
      }
    }

    /** `apply_gravity`. */
    method ApplyGravity()
      modifies this
      ensures State() == WithGravity(old(State()))
    {
      ApplyForce(Vec2(0.0, -GRAVITY * m), None);
    }

    /** `update_body`. */
    method Integrate()
      requires m != 0.0 && inertia != 0.0
      modifies this
      ensures State() == Integrated(old(State()))
    {
      vX := (vX * (1.0 - AIR_FRICTION)) + (fX / m);
      vY := (vY * (1.0 - AIR_FRICTION)) + (fY / m);
      x := x + vX;
      y := y + vY;
      vAngle := (vAngle * (1.0 - AIR_FRICTION)) + (torque / inertia);
      angle := angle + vAngle;
      angle := WrapDegrees(angle);
      fX := 0.0;
      fY := 0.0;
      torque := 0.0;
    }
  }
}
