/**
 * The spider: a patrol walk between two turning points and a one-way death that splits it
 * into two point-mass halves falling under gravity (`update_spider`).
 */
module Spiders {
  import opened Wrappers
  import opened Geometry
  import opened RigidBodies

  const SPIDER_MASS: real := 1.0
  const WALK_STEP: int := 2
  const LEFT_TURN: int := 130
  const RIGHT_TURN: int := 1150

  /** `idle` exists for the renderer only; no update ever assigns it. */
  datatype Mode = Idle | Walk | Dead
  datatype Direction = Left | Right

  datatype SpiderState = SpiderState(
    x: int, y: int, mode: Mode, direction: Direction, ticksInState: int,
    hitbox: Option<Rect>, hit: bool,
    leftHalf: Option<BodyState>, rightHalf: Option<BodyState>)

  /** The halves exist exactly while the spider is dead, and both can be integrated. */
  ghost predicate HalvesOk(s: SpiderState) {
    (s.mode == Dead <==> s.leftHalf.Some?) && (s.leftHalf.Some? <==> s.rightHalf.Some?) &&
    (s.leftHalf.Some? ==> Massive(s.leftHalf.value)) &&
    (s.rightHalf.Some? ==> Massive(s.rightHalf.value))
  }

  /** The spider `setup` places at (1000, 0), walking left. */
  function InitialSpider(): (s: SpiderState)
    ensures HalvesOk(s) && s.mode == Walk && s.direction == Left
    ensures s.x == 1000 && s.y == 0 && s.ticksInState == 0 && s.hitbox.None? && !s.hit
  {
    SpiderState(1000, 0, Walk, Left, 0, None, false, None, None)
  }

  /** The 130 by 100 box `update_spider` places at the spider: centred on its x, starting
      60 above its y. */
  function SpiderHitboxAt(x: int, y: int): (r: Rect)
    ensures r.x + r.w / 2.0 == x as real && r.y == (y + 60) as real
    ensures r.w == 130.0 && r.h == 100.0
  {
    Rect((x - 65) as real, (y + 60) as real, 130.0, 100.0)
  }

  /** The left half as spawned: at (x - 33, y + 110), thrown left and up, spinning one way. */
  function LeftHalfAt(x: int, y: int): (b: BodyState)
    ensures Massive(b) && b.m == SPIDER_MASS && b.inertia == 1.0
    ensures b.Center() == Vec2((x - 33) as real, (y + 110) as real) && b.angle == 0.0
    ensures b.vX == -4.0 && b.vY == 8.0 && b.vAngle == 2.0
    ensures b.fX == 0.0 && b.fY == 0.0 && b.torque == 0.0
  {
    BuildPointMass(SPIDER_MASS, (x - 33) as real, (y + 110) as real).(vX := -4.0, vY := 8.0, vAngle := 2.0)
  }

  /** The right half as spawned: the mirror image of the left one. */
  function RightHalfAt(x: int, y: int): (b: BodyState)
    ensures Massive(b) && b.m == SPIDER_MASS && b.inertia == 1.0
    ensures b.Center() == Vec2((x + 33) as real, (y + 110) as real) && b.angle == 0.0
    ensures b.vX == 4.0 && b.vY == 8.0 && b.vAngle == -2.0
    ensures b.fX == 0.0 && b.fY == 0.0 && b.torque == 0.0
  {
    BuildPointMass(SPIDER_MASS, (x + 33) as real, (y + 110) as real).(vX := 4.0, vY := 8.0, vAngle := -2.0)
  }

  /** One tick of a half: gravity, then integration. */
  function Fallen(b: BodyState): (r: BodyState)
    requires Massive(b)
    ensures Massive(r) && r.m == b.m && r.inertia == b.inertia
  {
    Integrated(WithGravity(b))
  }

  /**
   * `update_spider`, given the `hit` flag the knife check set this tick. The hitbox is
   * placed at the position before this tick's step. A hit kills the spider, restarts its
   * state clock and spawns fresh halves; a dead spider never walks again, and its halves
   * fall. A walking spider takes one step in its direction and turns at the bounds.
   */
  function NextSpider(s: SpiderState): (r: SpiderState)
    requires HalvesOk(s)
    ensures HalvesOk(r)
    ensures r.mode == Dead <==> s.hit || s.mode == Dead
    ensures !s.hit ==> r.mode == s.mode
    ensures r.hitbox == Some(SpiderHitboxAt(s.x, s.y))
    ensures r.y == s.y && r.hit == s.hit
    ensures r.ticksInState == if s.hit then 0 else s.ticksInState + 1
    ensures s.hit ==> r.leftHalf == Some(Fallen(LeftHalfAt(s.x, s.y)))
                      && r.rightHalf == Some(Fallen(RightHalfAt(s.x, s.y)))
    ensures !s.hit && s.mode == Dead ==> r.leftHalf == Some(Fallen(s.leftHalf.value))
                                         && r.rightHalf == Some(Fallen(s.rightHalf.value))
    ensures r.mode == Walk ==> r.x == s.x + (if s.direction == Left then -WALK_STEP else WALK_STEP)
    ensures r.mode == Walk ==> r.direction == (if r.x <= LEFT_TURN then Right
                                               else if r.x >= RIGHT_TURN then Left
                                               else s.direction)
    ensures r.mode != Walk ==> r.x == s.x && r.direction == s.direction
  {
    var counted := s.(hitbox := Some(SpiderHitboxAt(s.x, s.y)), ticksInState := s.ticksInState + 1);
    var struck := if s.hit then Killed(counted) else counted;
    match struck.mode
    case Walk => Walked(struck)
    case Dead => HalvesFallen(struck)
    case Idle => struck
  }

  /** The hit branch of `update_spider`: dead, state clock restarted, fresh halves at the
      spider's position. */
  function Killed(s: SpiderState): (r: SpiderState)
    ensures HalvesOk(r) && r.mode == Dead && r.ticksInState == 0
  {
    s.(mode := Dead, ticksInState := 0,
       leftHalf := Some(LeftHalfAt(s.x, s.y)), rightHalf := Some(RightHalfAt(s.x, s.y)))
  }

  /** The walk branch of `update_spider`. */
  function Walked(s: SpiderState): (r: SpiderState)
    ensures r.x == s.x - WALK_STEP || r.x == s.x + WALK_STEP
    ensures r.x < s.x <==> s.direction == Left
    ensures r.x <= LEFT_TURN ==> r.direction == Right
    ensures LEFT_TURN < r.x < RIGHT_TURN ==> r.direction == s.direction
    ensures LEFT_TURN < r.x && RIGHT_TURN <= r.x ==> r.direction == Left
    ensures r.(x := s.x, direction := s.direction) == s
  {
    var x := s.x + (if s.direction == Left then -WALK_STEP else WALK_STEP);
    s.(x := x, direction := if x <= LEFT_TURN then Right
                            else if x >= RIGHT_TURN then Left
                            else s.direction)
  }

  /** The dead branch of `update_spider`. */
  function HalvesFallen(s: SpiderState): (r: SpiderState)
    requires HalvesOk(s) && s.mode == Dead
    ensures HalvesOk(r)
  {
    s.(leftHalf := Some(Fallen(s.leftHalf.value)), rightHalf := Some(Fallen(s.rightHalf.value)))
  }

  /**
   * The patrol invariant: the spider stands on an even x between the turning points and
   * never faces past the bound it stands on.
   */
  ghost predicate OnPatrol(s: SpiderState) {
    LEFT_TURN <= s.x <= RIGHT_TURN && s.x % 2 == 0 &&
    (s.direction == Left ==> s.x > LEFT_TURN) && (s.direction == Right ==> s.x < RIGHT_TURN)
  }

  /** `update_spider` keeps the patrol invariant, whatever the hit flag. */
  lemma PatrolStep(s: SpiderState)
    requires HalvesOk(s) && OnPatrol(s)
    ensures OnPatrol(NextSpider(s))
  {
  }

  /** The two halves mirror each other about the vertical line x = axis. */
  ghost predicate Mirrored(a: BodyState, b: BodyState, axis: real) {
    a.x + b.x == 2.0 * axis && a.y == b.y &&
    a.vX == -b.vX && a.vY == b.vY && a.vAngle == -b.vAngle &&
    a.fX == -b.fX && a.fY == b.fY && a.torque == -b.torque &&
    a.m == b.m && a.inertia == b.inertia
  }

  /** The halves are spawned as mirror images about the spider's centre line. */
  lemma SpawnMirrored(x: int, y: int)
    ensures Mirrored(LeftHalfAt(x, y), RightHalfAt(x, y), x as real)
  {
  }

  /** Falling keeps the mirror symmetry: the halves fly apart symmetrically. */
  lemma FallKeepsMirror(a: BodyState, b: BodyState, axis: real)
    requires Massive(a) && Massive(b) && Mirrored(a, b, axis)
    ensures Mirrored(Fallen(a), Fallen(b), axis)
  {
    var ga, gb := WithGravity(a), WithGravity(b);
    assert ga.fX / ga.m == -(gb.fX / gb.m);
    assert ga.torque / ga.inertia == -(gb.torque / gb.inertia);
  }

  /** The spider record, updated in place; the halves are separate bodies. */
  class Spider {
    var x: int
    var y: int
    var mode: Mode
    var direction: Direction
    var ticksInState: int
    var hitbox: Option<Rect>
    var hit: bool
    var leftHalf: RigidBody?
    var rightHalf: RigidBody?

    function State(): SpiderState
      reads this, leftHalf, rightHalf
    {
      SpiderState(x, y, mode, direction, ticksInState, hitbox, hit,
                  if leftHalf == null then None else Some(leftHalf.State()),
                  if rightHalf == null then None else Some(rightHalf.State()))
    }

    ghost predicate Valid()
      reads this, leftHalf, rightHalf
      ensures Valid() ==> HalvesOk(State())
    {
      (mode == Dead <==> leftHalf != null) && (leftHalf == null <==> rightHalf == null) &&
      (leftHalf != null ==> leftHalf != rightHalf && leftHalf.m > 0.0 && leftHalf.inertia > 0.0) &&
      (rightHalf != null ==> rightHalf.m > 0.0 && rightHalf.inertia > 0.0)
    }

    /** The spider `setup` creates. */
    constructor ()
      ensures Valid() && State() == InitialSpider()
    {
      x, y := 1000, 0;
      mode, direction, ticksInState := Walk, Left, 0;
      hitbox, hit := None, false;
      leftHalf, rightHalf := null, null;
    }

    /** `update_spider`. */
    method Update()
      requires Valid()
      modifies this, leftHalf, rightHalf
      ensures Valid()
      ensures State() == NextSpider(old(State()))
      ensures old(hit) ==> fresh(leftHalf) && fresh(rightHalf)
      ensures !old(hit) ==> leftHalf == old(leftHalf) && rightHalf == old(rightHalf)
    {
      hitbox := Some(SpiderHitboxAt(x, y));
      ticksInState := ticksInState + 1;
      if hit {
        Die();
      }

      match mode
      case Walk => Step();
      case Dead => DropHalves();
      case Idle =>
    }

    /** The hit branch: the spider dies and two fresh halves are spawned. */
    method Die()
      modifies this
      ensures Valid()
      ensures State() == Killed(old(State()))
      ensures fresh(leftHalf) && fresh(rightHalf)
    {
      mode := Dead;
      ticksInState := 0;
      leftHalf := new RigidBody(BuildPointMass(SPIDER_MASS, (x - 33) as real, (y + 110) as real));
      leftHalf.vX := -4.0;
      leftHalf.vY := 8.0;
      leftHalf.vAngle := 2.0;
      rightHalf := new RigidBody(BuildPointMass(SPIDER_MASS, (x + 33) as real, (y + 110) as real));
      rightHalf.vX := 4.0;
      rightHalf.vY := 8.0;
      rightHalf.vAngle := -2.0;
    }

    /** The walk branch: one step, turning at the bounds. */
    method Step()
      requires Valid()
      modifies this
      ensures Valid()
      ensures State() == Walked(old(State()))
      ensures leftHalf == old(leftHalf) && rightHalf == old(rightHalf)
    {
      var sign := if direction == Left then -1 else 1;
      x := x + sign * WALK_STEP;
      if x <= LEFT_TURN {
        direction := Right;
      } else if x >= RIGHT_TURN {
        direction := Left;
      }
    }

    /** The dead branch: both halves fall for one tick. */
    method DropHalves()
      requires Valid() && mode == Dead
      modifies leftHalf, rightHalf
      ensures Valid()
      ensures State() == HalvesFallen(old(State()))
    {
      leftHalf.ApplyGravity();
      rightHalf.ApplyGravity();
      leftHalf.Integrate();
      rightHalf.Integrate();
    }
  }
}
