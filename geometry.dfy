/** Plane geometry shared by the simulation: vectors, boxes, rotation about a pivot. */
module Geometry {

  /** A point or a vector in world coordinates (x to the right, y up). */
  datatype Vec2 = Vec2(x: real, y: real)
  {
    function Plus(o: Vec2): Vec2 { Vec2(x + o.x, y + o.y) }
    function Minus(o: Vec2): Vec2 { Vec2(x - o.x, y - o.y) }
  }

  /** The z component of the cross product a x b: the torque of force b applied at lever a. */
  function Cross(a: Vec2, b: Vec2): real { a.x * b.y - a.y * b.x }

  /** Squared length of a vector. */
  function NormSq(a: Vec2): real { a.x * a.x + a.y * a.y }

  /** An axis-aligned box whose lower-left corner is (x, y). */
  datatype Rect = Rect(x: real, y: real, w: real, h: real)

  /**
   * Overlap of two boxes taken as closed intervals on both axes. This is the model's own
   * definition standing in for the engine's `intersect_rect?`, whose behaviour on touching
   * edges is not claimed.
   */
  predicate Overlaps(a: Rect, b: Rect)
    ensures Overlaps(a, b) && a.w >= 0.0 && a.h >= 0.0 && b.w >= 0.0 && b.h >= 0.0 ==>
            Inside(Vec2(Max(a.x, b.x), Max(a.y, b.y)), a) && Inside(Vec2(Max(a.x, b.x), Max(a.y, b.y)), b)
  {
    a.x <= b.x + b.w && b.x <= a.x + a.w && a.y <= b.y + b.h && b.y <= a.y + a.h
  }

  /** Whether a point lies in a box, edges included. */
  predicate Inside(p: Vec2, r: Rect) {
    r.x <= p.x <= r.x + r.w && r.y <= p.y <= r.y + r.h
  }

  function Max(a: real, b: real): real { if a < b then b else a }

  /** Boxes sharing a point overlap, so for boxes of non-negative size `Overlaps` means
      exactly that they have a point in common. */
  lemma SharedPointOverlaps(a: Rect, b: Rect, p: Vec2)
    requires Inside(p, a) && Inside(p, b)
    ensures Overlaps(a, b)
  {
  }

  /**
   * `PointRotator#rotate`: the point at `offset` from `center`, turned by the angle whose
   * sine and cosine are given. The trigonometric values are inputs of the model.
   */
  function Rotate(center: Vec2, sin: real, cos: real, offset: Vec2): (r: Vec2)
    ensures offset == Vec2(0.0, 0.0) ==> r == center
  {
    Vec2(center.x + offset.x * cos - offset.y * sin,
         center.y + offset.x * sin + offset.y * cos)
  }

  /** The angles of 0, 90 and 270 degrees turn the offset as expected. */
  lemma RotateQuarterTurns(center: Vec2, offset: Vec2)
    ensures Rotate(center, 0.0, 1.0, offset) == center.Plus(offset)
    ensures Rotate(center, 1.0, 0.0, offset) == center.Plus(Vec2(-offset.y, offset.x))
    ensures Rotate(center, -1.0, 0.0, offset) == center.Plus(Vec2(offset.y, -offset.x))
  {
  }

  /** Moving the pivot moves the rotated point by the same displacement. */
  lemma RotateFollowsPivot(c: Vec2, d: Vec2, sin: real, cos: real, offset: Vec2)
    ensures Rotate(c.Plus(d), sin, cos, offset) == Rotate(c, sin, cos, offset).Plus(d)
  {
  }

  /** With a genuine sine/cosine pair, rotating keeps the distance to the pivot. */
  lemma RotatePreservesDistance(center: Vec2, sin: real, cos: real, offset: Vec2)
    requires sin * sin + cos * cos == 1.0
    ensures NormSq(Rotate(center, sin, cos, offset).Minus(center)) == NormSq(offset)
  {
    var a, b := offset.x, offset.y;
    calc {
      NormSq(Rotate(center, sin, cos, offset).Minus(center));
      (a * cos - b * sin) * (a * cos - b * sin) + (a * sin + b * cos) * (a * sin + b * cos);
      a * a * (sin * sin + cos * cos) + b * b * (sin * sin + cos * cos);
      a * a + b * b;
    }
  }

  /** Ruby's floored `angle % 360` on a real angle in degrees. */
  function WrapDegrees(a: real): (r: real)
    ensures 0.0 <= r < 360.0
    ensures 0.0 <= a < 360.0 ==> r == a
  {
    a - 360.0 * ((a / 360.0).Floor as real)
  }

  /** Wrapping ignores whole turns: the result depends only on the angle modulo 360. */
  lemma WrapDegreesPeriodic(a: real, k: int)
    ensures WrapDegrees(a + 360.0 * (k as real)) == WrapDegrees(a)
  {
    var q := a / 360.0;
    assert (a + 360.0 * (k as real)) / 360.0 == q + k as real;
    assert (q + k as real).Floor == q.Floor + k;
  }
}
