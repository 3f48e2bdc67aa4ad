/**
 * The butterfly: a point mass steered by flap and move commands, carrying a flap counter and
 * a hitbox (`update_butterfly`).
 */
module Butterflies {
  import opened Wrappers
  import opened Geometry
  import opened RigidBodies

  const BUTTERFLY_MASS: real := 1.0
  const FLAP_FORCE: real := 6.0
  const HORIZONTAL_FORCE: real := 0.15

  /** Horizontal intent: -1 (left), 0 or +1 (right). */
  type Move = m: int | -1 <= m <= 1

  /** The neutral per-tick command the input layer hands to the core. */
  datatype Command = Command(flap: bool, move: Move)

  datatype ButterflyState = ButterflyState(
    body: BodyState, ticksSinceFlap: int, ticksSinceAudio: int,
    hitbox: Option<Rect>, hit: bool)

  /** The butterfly right after setup: a unit point mass at (640, 360), counters at 0,
      no hitbox yet. */
  function InitialButterfly(): (b: ButterflyState)
    ensures Massive(b.body) && AtRest(b.body)
    ensures b.body.m == BUTTERFLY_MASS && b.body.inertia == 1.0 && b.body.angle == 0.0
    ensures b.body.Center() == Vec2(640.0, 360.0)
    ensures b.hitbox.None? && !b.hit && b.ticksSinceFlap == 0 && b.ticksSinceAudio == 0
  {
    ButterflyState(BuildPointMass(BUTTERFLY_MASS, 640.0, 360.0), 0, 0, None, false)
  }

  /** The 120 by 130 box `update_butterfly` places at the butterfly's position: it starts
      at the body's height, and its centre line is 10 to the left of the body. */
  function ButterflyHitboxAt(p: Vec2): (r: Rect)
    ensures Inside(p, r) && r.y == p.y
    ensures r.w == 120.0 && r.h == 130.0 && r.x + r.w / 2.0 == p.x - 10.0
  {
    Rect(p.x - 70.0, p.y, 120.0, 130.0)
  }

  /**
   * The second half of `apply_input_commands`: a flap adds `FLAP_FORCE` upwards and marks
   * the flap as just started (-1); a move adds `move * HORIZONTAL_FORCE` sideways. The
   * forces go straight into the accumulator; nothing else changes.
   */
  function Commanded(b: ButterflyState, cmd: Command): (r: ButterflyState)
    ensures r.body.fY == b.body.fY + (if cmd.flap then FLAP_FORCE else 0.0)
    ensures r.body.fX == b.body.fX + (cmd.move as real) * HORIZONTAL_FORCE
    ensures r.ticksSinceFlap == (if cmd.flap then -1 else b.ticksSinceFlap)
    ensures r.body.(fX := b.body.fX, fY := b.body.fY) == b.body
    ensures r.(body := b.body, ticksSinceFlap := b.ticksSinceFlap) == b
  {
    var flapped :=
      if cmd.flap then b.(body := b.body.(fY := b.body.fY + FLAP_FORCE), ticksSinceFlap := -1)
      else b;
    if cmd.move != 0 then
      flapped.(body := flapped.body.(fX := flapped.body.fX + (cmd.move as real) * HORIZONTAL_FORCE))
    else
      flapped
  }

  /** `update_butterfly`: both counters advance and the hitbox follows the body. */
  function NextButterfly(b: ButterflyState): (r: ButterflyState)
    ensures r.ticksSinceFlap == b.ticksSinceFlap + 1
    ensures r.ticksSinceAudio == b.ticksSinceAudio + 1
    ensures r.hitbox == Some(ButterflyHitboxAt(b.body.Center()))
    ensures r.body == b.body && r.hit == b.hit
  {
    b.(ticksSinceFlap := b.ticksSinceFlap + 1, ticksSinceAudio := b.ticksSinceAudio + 1,
       hitbox := Some(ButterflyHitboxAt(b.body.Center())))
  }

  /** A flap followed by the tick's counter update leaves the counter at exactly 0, the value
      the presentation layer reads as "flap just started". */
  lemma FlapRestartsCounter(b: ButterflyState, cmd: Command)
    requires cmd.flap
    ensures NextButterfly(Commanded(b, cmd)).ticksSinceFlap == 0
  {
    assert Commanded(b, cmd).ticksSinceFlap == -1;
  }

  /** The butterfly record, updated in place. */
  class Butterfly {
    const body: RigidBody
    var ticksSinceFlap: int
    var ticksSinceAudio: int
    var hitbox: Option<Rect>
    var hit: bool

    function State(): ButterflyState
      reads this, body
    {
      ButterflyState(body.State(), ticksSinceFlap, ticksSinceAudio, hitbox, hit)
    }

    /** The butterfly created by `setup`. */
    constructor ()
      ensures State() == InitialButterfly() && fresh(body)
    {
      body := new RigidBody(BuildPointMass(BUTTERFLY_MASS, 640.0, 360.0));
      ticksSinceFlap, ticksSinceAudio := 0, 0;
      hitbox, hit := None, false;
    }

    /** Applies one effective command (the tail of `apply_input_commands`). */
    method ApplyCommand(cmd: Command)
      modifies this, body
      ensures State() == Commanded(old(State()), cmd)
    {
      if cmd.flap {
        body.fY := body.fY + FLAP_FORCE;
        ticksSinceFlap := -1;
      }
      if cmd.move != 0 {
        body.fX := body.fX + (cmd.move as real) * HORIZONTAL_FORCE;
      }
    }

    /** `update_butterfly`. */
    method Update()
      modifies this
      ensures State() == NextButterfly(old(State()))
    {
      ticksSinceFlap := ticksSinceFlap + 1;
      ticksSinceAudio := ticksSinceAudio + 1;
      hitbox := Some(ButterflyHitboxAt(Vec2(body.x, body.y)));
    }
  }
}
