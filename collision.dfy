/**
 * The two hit tests of a tick (`check_knife_collision`, `check_spider_collision`), both
 * gates over the box overlap of `Geometry.Overlaps`.
 */
module Collisions {
  import opened Wrappers
  import opened Geometry
  import opened Butterflies
  import opened Knives
  import opened Spiders

  /** Ticks after a cut during which its hitbox is lethal. */
  const CUT_WINDOW: int := 3

  /**
   * `check_knife_collision`: the knife hits the spider only within `CUT_WINDOW` ticks of a
   * cut, and only if a cut hitbox exists and overlaps the spider's box. A cut hitbox
   * never exists before the spider has its first box, which the source relies on.
   */
  predicate KnifeHitsSpider(k: KnifeState, spiderHitbox: Option<Rect>)
    requires k.cutHitbox.Some? ==> spiderHitbox.Some?
    ensures KnifeHitsSpider(k, spiderHitbox) ==> k.cutHitbox.Some? && k.ticksSinceCut < CUT_WINDOW
    ensures KnifeHitsSpider(k, spiderHitbox) ==> Overlaps(k.cutHitbox.value, spiderHitbox.value)
  {
    k.ticksSinceCut < CUT_WINDOW && k.cutHitbox.Some? &&
    Overlaps(k.cutHitbox.value, spiderHitbox.value)
  }

  /**
   * `check_spider_collision`: a dead spider leaves the butterfly's `hit` flag as it was;
   * otherwise the flag becomes whether the two boxes overlap. Nothing else changes.
   */
  function WithSpiderCollision(b: ButterflyState, s: SpiderState): (r: ButterflyState)
    requires s.mode != Mode.Dead ==> s.hitbox.Some? && b.hitbox.Some?
    ensures s.mode == Mode.Dead ==> r == b
    ensures s.mode != Mode.Dead ==> (r.hit <==> Overlaps(s.hitbox.value, b.hitbox.value))
    ensures r.(hit := b.hit) == b
  {
    if s.mode == Mode.Dead then b
    else b.(hit := Overlaps(s.hitbox.value, b.hitbox.value))
  }

  /** `check_knife_collision` on the records: sets the spider's `hit` flag. */
  method CheckKnifeCollision(knife: Knife, spider: Spider)
    requires knife.cutHitbox.Some? ==> spider.hitbox.Some?
    modifies spider
    ensures spider.State() == old(spider.State()).(hit := KnifeHitsSpider(knife.State(), old(spider.hitbox)))
    ensures spider.leftHalf == old(spider.leftHalf) && spider.rightHalf == old(spider.rightHalf)
  {
    spider.hit := knife.ticksSinceCut < CUT_WINDOW && knife.cutHitbox.Some? &&
                  Overlaps(knife.cutHitbox.value, spider.hitbox.value);
  }

  /** `check_spider_collision` on the records: sets the butterfly's `hit` flag unless the
      spider is dead. */
  method CheckSpiderCollision(butterfly: Butterfly, spider: Spider)
    requires spider.mode != Mode.Dead ==> spider.hitbox.Some? && butterfly.hitbox.Some?
    modifies butterfly
    ensures butterfly.State() == WithSpiderCollision(old(butterfly.State()), spider.State())
  {
    if spider.mode == Mode.Dead {
      return;
    }
    butterfly.hit := Overlaps(spider.hitbox.value, butterfly.hitbox.value);
  }
}
