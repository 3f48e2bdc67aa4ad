/**
 * The tether between the butterfly and the knife's pivot (`apply_connection_force`) and the
 * one-off placement of the knife onto the butterfly at setup (`move_knife_to_butterfly`).
 */
module Tether {
  import opened Wrappers
  import opened Geometry
  import opened RigidBodies
  import opened Butterflies
  import opened Knives

  const CONNECTION_STRENGTH: real := 0.03

  /**
   * `apply_connection_force`: the butterfly is pulled towards the pivot in proportion to
   * their separation, and the knife receives exactly the opposite force, applied at the pivot
   * and therefore with the torque of that force about the knife's centre. The butterfly's
   * torque, and every non-accumulator field of both bodies, is left alone.
   */
  function Tethered(butterfly: BodyState, knife: BodyState, pivot: Vec2): (r: (BodyState, BodyState))
    ensures r.0.fX - butterfly.fX == -(r.1.fX - knife.fX)
    ensures r.0.fY - butterfly.fY == -(r.1.fY - knife.fY)
    ensures r.0.fX - butterfly.fX == (pivot.x - butterfly.x) * CONNECTION_STRENGTH
    ensures r.0.fY - butterfly.fY == (pivot.y - butterfly.y) * CONNECTION_STRENGTH
    ensures r.0.torque == butterfly.torque
    ensures r.1.torque == knife.torque
            + Cross(pivot.Minus(knife.Center()), Vec2(r.1.fX - knife.fX, r.1.fY - knife.fY))
    ensures r.0.(fX := butterfly.fX, fY := butterfly.fY) == butterfly
    ensures r.1.(fX := knife.fX, fY := knife.fY, torque := knife.torque) == knife
  {
    var toKnife := pivot.Minus(butterfly.Center());
    var b := WithForce(butterfly,
                       Vec2(toKnife.x * CONNECTION_STRENGTH, toKnife.y * CONNECTION_STRENGTH), None);
    var k := WithForce(knife,
                       Vec2(-toKnife.x * CONNECTION_STRENGTH, -toKnife.y * CONNECTION_STRENGTH),
                       Some(pivot));
    (b, k)
  }

  /** When the butterfly sits on the pivot the tether exerts no force at all. */
  lemma SlackWhenJoined(butterfly: BodyState, knife: BodyState, pivot: Vec2)
    requires butterfly.Center() == pivot
    ensures Tethered(butterfly, knife, pivot) == (butterfly, knife)
  {
    var r := Tethered(butterfly, knife, pivot);
    assert r.0.fX == butterfly.fX && r.0.fY == butterfly.fY;
    assert r.1.fX == knife.fX && r.1.fY == knife.fY && r.1.torque == knife.torque;
  }

  /**
   * `move_knife_to_butterfly`: the knife's centre is shifted by the offset from its recorded
   * pivot to the butterfly. The recorded pivot and tip are not recomputed.
   */
  function MovedToButterfly(k: KnifeState, butterfly: Vec2): (r: KnifeState)
    ensures r.body.Center() == k.body.Center().Plus(butterfly.Minus(k.bottom))
    ensures r.body.(x := k.body.x, y := k.body.y) == k.body
    ensures r.(body := k.body) == k
  {
    k.(body := k.body.(x := k.body.x + (butterfly.x - k.bottom.x),
                       y := k.body.y + (butterfly.y - k.bottom.y)))
  }

  /** If the recorded pivot was up to date, recomputing it after the move puts it exactly on
      the butterfly. */
  lemma MovedPivotMeetsButterfly(k: KnifeState, butterfly: Vec2, sin: real, cos: real)
    requires k.bottom == Rotate(k.body.Center(), sin, cos, PIVOT_OFFSET)
    ensures Rotate(MovedToButterfly(k, butterfly).body.Center(), sin, cos, PIVOT_OFFSET) == butterfly
  {
    var d := butterfly.Minus(k.bottom);
    RotateFollowsPivot(k.body.Center(), d, sin, cos, PIVOT_OFFSET);
  }

  /** `apply_connection_force` on the two records. */
  method ApplyConnectionForce(butterfly: Butterfly, knife: Knife)
    requires butterfly.body != knife.body
    modifies butterfly.body, knife.body
    ensures (butterfly.body.State(), knife.body.State())
         == Tethered(old(butterfly.body.State()), old(knife.body.State()), knife.bottom)
  {
    var toKnife := Vec2(knife.bottom.x - butterfly.body.x, knife.bottom.y - butterfly.body.y);
    butterfly.body.ApplyForce(
      Vec2(toKnife.x * CONNECTION_STRENGTH, toKnife.y * CONNECTION_STRENGTH), None);
    knife.body.ApplyForce(
      Vec2(-toKnife.x * CONNECTION_STRENGTH, -toKnife.y * CONNECTION_STRENGTH), Some(knife.bottom));
  }

  /** `move_knife_to_butterfly` on the two records. */
  method MoveKnifeToButterfly(knife: Knife, butterfly: Butterfly)
    modifies knife.body
    ensures knife.State() == MovedToButterfly(old(knife.State()), old(butterfly.body.State().Center()))
  {
    var diffX := butterfly.body.x - knife.bottom.x;
    var diffY := butterfly.body.y - knife.bottom.y;
    knife.body.x := knife.body.x + diffX;
    knife.body.y := knife.body.y + diffY;
  }
}
