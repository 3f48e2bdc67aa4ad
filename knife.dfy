/**
 * The knife: a rod on the tether whose pivot (`bottom`) and blade tip (`blade_top`) are
 * recomputed each tick (`update_knife_points`), and whose swing is recognised as a cut
 * (`knife_cuts?`, `update_knife`).
 */
module Knives {
  import opened Wrappers
  import opened Geometry
  import opened RigidBodies

  const KNIFE_MASS: real := 2.0
  const KNIFE_LENGTH: real := 200.0
  const LENGTH_FACTOR: real := 0.15
  const KNIFE_HALF_LENGTH: real := 100.0

  /** Body-frame offsets of the pivot (where the tether holds) and of the blade tip. */
  const PIVOT_OFFSET: Vec2 := Vec2(0.0, KNIFE_HALF_LENGTH)
  const TIP_OFFSET: Vec2 := Vec2(0.0, -80.0)

  /** The cut gesture: the orientation window (0 degrees points down, 90 right), the spin
      threshold, the tip-speed threshold and the cooldown in ticks. */
  const CUT_MIN_ANGLE: real := 100.0
  const CUT_MAX_ANGLE: real := 120.0
  const CUT_MAX_SPIN: real := -3.0
  const CUT_MIN_TIP_SPEED: real := 7.0
  const CUT_COOLDOWN: int := 20

  /**
   * The knife record. `tipSpeedSq` holds the square of the source's `tip_speed`, so the
   * square root is never taken (see `SpeedThresholdSquared`).
   */
  datatype KnifeState = KnifeState(
    body: BodyState,
    bottom: Vec2, bladeTop: Vec2, previousBladeTop: Vec2,
    tipV: Vec2, tipSpeedSq: real,
    cut: bool, cutPosition: Option<Vec2>, cutHitbox: Option<Rect>,
    ticksSinceCut: int, ticksSinceAudio: int)

  /**
   * The knife as `setup` builds it, before it is moved onto the butterfly: a rod of mass 2
   * and length 30 at (640, 260) pointing left (270 degrees), with its points computed from
   * the given sine and cosine of that angle. As no tip was recorded before, the previous tip
   * is the current one.
   */
  function SetupKnife(sin: real, cos: real): (k: KnifeState)
    ensures k.body.inertia == 150.0 && Massive(k.body) && AtRest(k.body)
    ensures k.body.Center() == Vec2(640.0, 260.0) && k.body.angle == 270.0
    ensures k.bottom == Rotate(k.body.Center(), sin, cos, PIVOT_OFFSET)
    ensures k.previousBladeTop == k.bladeTop == Rotate(k.body.Center(), sin, cos, TIP_OFFSET)
    ensures k.body.m == KNIFE_MASS && k.ticksSinceAudio == 0
    ensures !k.cut && k.cutHitbox.None? && k.cutPosition.None? && k.ticksSinceCut == 0
  {
    var body := BuildRodMass(KNIFE_MASS, KNIFE_LENGTH * LENGTH_FACTOR, 640.0, 260.0, 270.0);
    var tip := Rotate(body.Center(), sin, cos, TIP_OFFSET);
    KnifeState(body, Rotate(body.Center(), sin, cos, PIVOT_OFFSET), tip, tip,
               Vec2(0.0, 0.0), 0.0, false, None, None, 0, 0)
  }

  /** `update_knife_points`: pivot and tip from the current centre and angle; the tip of
      the previous call becomes the previous tip. */
  function WithPoints(k: KnifeState, sin: real, cos: real): (r: KnifeState)
    ensures r.bottom == Rotate(k.body.Center(), sin, cos, PIVOT_OFFSET)
    ensures r.bladeTop == Rotate(k.body.Center(), sin, cos, TIP_OFFSET)
    ensures r.previousBladeTop == k.bladeTop
    ensures r.(bottom := k.bottom, bladeTop := k.bladeTop, previousBladeTop := k.previousBladeTop) == k
  {
    k.(bottom := Rotate(k.body.Center(), sin, cos, PIVOT_OFFSET),
       previousBladeTop := k.bladeTop,
       bladeTop := Rotate(k.body.Center(), sin, cos, TIP_OFFSET))
  }

  /** Tip displacement since the previous tick. */
  function TipVelocity(k: KnifeState): (v: Vec2)
    ensures k.previousBladeTop.Plus(v) == k.bladeTop
  {
    k.bladeTop.Minus(k.previousBladeTop)
  }

  /** The boolean of `knife_cuts?`, with the tip speed given squared. The cooldown is
      compared before this tick's increment. */
  predicate CutGuard(angle: real, vAngle: real, tipSpeedSq: real, ticksSinceCut: int)
    ensures CutGuard(angle, vAngle, tipSpeedSq, ticksSinceCut) ==>
            100.0 < angle < 120.0 && vAngle < -3.0 && tipSpeedSq > 49.0 && ticksSinceCut >= 21
    ensures ticksSinceCut <= CUT_COOLDOWN || tipSpeedSq <= 49.0 ==>
            !CutGuard(angle, vAngle, tipSpeedSq, ticksSinceCut)
  {
    angle > CUT_MIN_ANGLE && angle < CUT_MAX_ANGLE && vAngle < CUT_MAX_SPIN &&
    tipSpeedSq > CUT_MIN_TIP_SPEED * CUT_MIN_TIP_SPEED && ticksSinceCut > CUT_COOLDOWN
  }

  /** For a speed t (never negative), `t > 7` exactly when `t * t > 49`. */
  lemma SpeedThresholdSquared(t: real)
    requires t >= 0.0
    ensures t > CUT_MIN_TIP_SPEED <==> t * t > CUT_MIN_TIP_SPEED * CUT_MIN_TIP_SPEED
  {
    if t > 7.0 {
      assert t * t > 7.0 * t;
    } else {
      assert t * t <= 7.0 * t;
    }
  }

  /** The 160 by 160 box opened by a cut: the blade tip sits on its left edge, 130 above
      its bottom. */
  function CutHitboxAt(p: Vec2): (r: Rect)
    ensures Inside(p, r) && r.w == 160.0 && r.h == 160.0
    ensures r.x == p.x && p.y - r.y == 130.0
  {
    Rect(p.x, p.y - 130.0, 160.0, 160.0)
  }

  /**
   * `knife_cuts?` followed by the rest of `update_knife`. The cut fires exactly when the
   * guard holds for this tick's angle, spin, tip speed and pre-increment cooldown; a cut
   * records the tip, opens the hitbox there and restarts the cooldown; otherwise the
   * cooldown counter grows by one and the last cut's position and hitbox stay.
   */
  function NextKnife(k: KnifeState): (r: KnifeState)
    ensures r.tipV == TipVelocity(k) && r.tipSpeedSq == NormSq(TipVelocity(k))
    ensures r.cut <==> CutGuard(k.body.angle, k.body.vAngle, NormSq(TipVelocity(k)), k.ticksSinceCut)
    ensures r.cut ==> r.ticksSinceCut == 0 && r.cutPosition == Some(k.bladeTop)
                      && r.cutHitbox == Some(CutHitboxAt(k.bladeTop))
    ensures !r.cut ==> r.ticksSinceCut == k.ticksSinceCut + 1
                       && r.cutPosition == k.cutPosition && r.cutHitbox == k.cutHitbox
    ensures r.cut ==> k.ticksSinceCut > CUT_COOLDOWN
    ensures r.ticksSinceAudio == k.ticksSinceAudio + 1
    ensures r.body == k.body && r.bottom == k.bottom && r.bladeTop == k.bladeTop
            && r.previousBladeTop == k.previousBladeTop
  {
    var v := TipVelocity(k);
    var cut := CutGuard(k.body.angle, k.body.vAngle, NormSq(v), k.ticksSinceCut);
    var counted := k.(tipV := v, tipSpeedSq := NormSq(v), cut := cut,
                      ticksSinceAudio := k.ticksSinceAudio + 1,
                      ticksSinceCut := k.ticksSinceCut + 1);
    if cut then
      counted.(cutPosition := Some(k.bladeTop), cutHitbox := Some(CutHitboxAt(k.bladeTop)),
               ticksSinceCut := 0)
    else
      counted
  }

  /** A knife that has not moved its tip since the last tick cannot cut. */
  lemma StillTipNeverCuts(k: KnifeState)
    requires k.bladeTop == k.previousBladeTop
    ensures !NextKnife(k).cut
  {
    assert NormSq(TipVelocity(k)) == 0.0;
  }

  /** The knife record, updated in place. */
  class Knife {
    const body: RigidBody
    var bottom: Vec2
    var bladeTop: Vec2
    var previousBladeTop: Vec2
    var tipV: Vec2
    var tipSpeedSq: real
    var cut: bool
    var cutPosition: Option<Vec2>
    var cutHitbox: Option<Rect>
    var ticksSinceCut: int
    var ticksSinceAudio: int

    function State(): KnifeState
      reads this, body
    {
      KnifeState(body.State(), bottom, bladeTop, previousBladeTop, tipV, tipSpeedSq,
                 cut, cutPosition, cutHitbox, ticksSinceCut, ticksSinceAudio)
    }

    /** The knife `setup` builds, including its first `update_knife_points`. */
    constructor (sin: real, cos: real)
      ensures State() == SetupKnife(sin, cos) && fresh(body)
    {
      var b := new RigidBody(BuildRodMass(KNIFE_MASS, KNIFE_LENGTH * LENGTH_FACTOR, 640.0, 260.0, 270.0));
      body := b;
      var center := Vec2(b.x, b.y);
      bottom := Rotate(center, sin, cos, PIVOT_OFFSET);
      bladeTop := Rotate(center, sin, cos, TIP_OFFSET);
      previousBladeTop := bladeTop;
      tipV, tipSpeedSq := Vec2(0.0, 0.0), 0.0;
      cut, cutPosition, cutHitbox := false, None, None;
      ticksSinceCut, ticksSinceAudio := 0, 0;
    }

    /** `update_knife_points`, with the sine and cosine of the current angle supplied. */
    method UpdatePoints(sin: real, cos: real)
      modifies this
      ensures State() == WithPoints(old(State()), sin, cos)
    {
      var center := Vec2(body.x, body.y);
      bottom := Rotate(center, sin, cos, PIVOT_OFFSET);
      previousBladeTop := bladeTop;
      bladeTop := Rotate(center, sin, cos, TIP_OFFSET);
    }

    /** `knife_cuts?`: records the tip velocity and (squared) speed, then evaluates the
        guard. */
    method Cuts() returns (c: bool)
      modifies this
      ensures State() == old(State()).(tipV := TipVelocity(old(State())),
                                       tipSpeedSq := NormSq(TipVelocity(old(State()))))
      ensures c == CutGuard(body.angle, body.vAngle, tipSpeedSq, ticksSinceCut)
    {
      tipV := Vec2(bladeTop.x - previousBladeTop.x, bladeTop.y - previousBladeTop.y);
      tipSpeedSq := (tipV.x * tipV.x) + (tipV.y * tipV.y);
      c := body.angle > CUT_MIN_ANGLE && body.angle < CUT_MAX_ANGLE && body.vAngle < CUT_MAX_SPIN
           && tipSpeedSq > CUT_MIN_TIP_SPEED * CUT_MIN_TIP_SPEED && ticksSinceCut > CUT_COOLDOWN;
    }

    /** `update_knife`. */
    method Update()
      modifies this
      ensures State() == NextKnife(old(State()))
    {
      cut := Cuts();
      ticksSinceAudio := ticksSinceAudio + 1;
      ticksSinceCut := ticksSinceCut + 1;
      if !cut {
        return;
      }
      cutPosition := Some(bladeTop);
      cutHitbox := Some(CutHitboxAt(cutPosition.value));
      ticksSinceCut := 0;
    }
  }
}
