/**
 * What holds over a whole round: properties of `Worlds.Tick` and of runs of ticks from
 * any state satisfying `Inv`, and from the state `setup` produces.
 */
module Rounds {
  import opened Wrappers
  import opened Geometry
  import opened RigidBodies
  import opened Butterflies
  import opened Knives
  import opened Spiders
  import opened Collisions
  import opened Outcome
  import opened Worlds

  /** Every tick leaves a won, lost or timed-out round as it is, timer included. */
  lemma {:induction false} OutcomeIsFinal(w: World, ins: seq<TickInput>)
    requires Inv(w) && w.gameState != Playing
    ensures Run(w, ins).gameState == w.gameState
    ensures Run(w, ins).remainingTime == w.remainingTime
    decreases |ins|
  {
    if ins != [] {
      OutcomeIsFinal(Tick(w, ins[0]), ins[1..]);
    }
  }

  /** Once the round is lost or out of time the player's command changes nothing: two
      ticks that differ only in the command agree. */
  lemma InputIgnoredWhenOver(w: World, i: TickInput, j: TickInput)
    requires Inv(w) && (w.gameState == GameState.Dead || w.gameState == TimeUp)
    requires i.elapsed == j.elapsed && i.sin == j.sin && i.cos == j.cos
    ensures Tick(w, i) == Tick(w, j)
  {
  }

  /** A dead spider stays dead. */
  lemma {:induction false} SpiderStaysDead(w: World, ins: seq<TickInput>)
    requires Inv(w) && w.spider.mode == Mode.Dead
    ensures Run(w, ins).spider.mode == Mode.Dead
    decreases |ins|
  {
    if ins != [] {
      SpiderStaysDead(Tick(w, ins[0]), ins[1..]);
    }
  }

  /** The spider starts on its patrol ... */
  lemma InitialOnPatrol()
    ensures OnPatrol(Initial().spider)
  {
  }

  /** ... and never leaves it: between the turning points, on even x, dead or alive. */
  lemma {:induction false} SpiderStaysOnPatrol(w: World, ins: seq<TickInput>)
    requires Inv(w) && OnPatrol(w.spider)
    ensures OnPatrol(Run(w, ins).spider)
    decreases |ins|
  {
    if ins != [] {
      var w' := Tick(w, ins[0]);
      var m := Moved(w, ins[0]);
      var k := NextKnife(m.knife);
      PatrolStep(m.spider.(hit := KnifeHitsSpider(k, m.spider.hitbox)));
      SpiderStaysOnPatrol(w', ins[1..]);
    }
  }

  /** From `setup`, the spider's x stays within the turning points [130, 1150] forever. */
  lemma SpiderStaysInBounds(ins: seq<TickInput>)
    ensures LEFT_TURN <= Run(Initial(), ins).spider.x <= RIGHT_TURN
  {
    SpiderStaysOnPatrol(Initial(), ins);
  }

  /**
   * The cut cooldown: from a state whose counter is `c`, no cut happens in the next
   * `21 - c` ticks and the counter simply counts them.
   */
  lemma {:induction false} NoCutDuringCooldown(w: World, ins: seq<TickInput>)
    requires Inv(w) && 1 <= |ins| && w.knife.ticksSinceCut + |ins| <= CUT_COOLDOWN + 1
    ensures !Run(w, ins).knife.cut
    ensures Run(w, ins).knife.ticksSinceCut == w.knife.ticksSinceCut + |ins|
    decreases |ins|
  {
    var w' := Tick(w, ins[0]);
    assert w'.knife == NextKnife(Moved(w, ins[0]).knife);
    if |ins| > 1 {
      NoCutDuringCooldown(w', ins[1..]);
    }
  }

  /** Two cuts are at least 22 ticks apart. */
  lemma CutsAreSpaced(w: World, ins: seq<TickInput>)
    requires Inv(w) && w.knife.cut && 1 <= |ins| <= CUT_COOLDOWN + 1
    ensures !Run(w, ins).knife.cut
  {
    NoCutDuringCooldown(w, ins);
  }

  /** No cut can happen in the first 21 ticks of a round. */
  lemma NoCutAtStart(ins: seq<TickInput>)
    requires 1 <= |ins| <= CUT_COOLDOWN + 1
    ensures !Run(Initial(), ins).knife.cut
  {
    NoCutDuringCooldown(Initial(), ins);
  }

  /** Where `setup` leaves the knife: hung from the butterfly with its centre at
      (540, 360), while the tip it recorded is still the one at (560, 260). */
  lemma SetupKnifePoints()
    ensures Initial().knife.body.Center() == Vec2(540.0, 360.0)
    ensures Initial().knife.bladeTop == Vec2(560.0, 260.0)
  {
    var k0 := SetupKnife(SIN_270, COS_270);
    assert k0.bladeTop == Vec2(560.0, 260.0) && k0.bottom == Vec2(740.0, 260.0);
  }

  /**
   * `setup` records the blade tip before hanging the knife from the butterfly, so on the
   * first tick the tip appears to jump by the whole move; the cooldown keeps that jump
   * from cutting.
   */
  lemma FirstTickTipJump(i: TickInput)
    requires i.sin == SIN_270 && i.cos == COS_270
    ensures Tick(Initial(), i).knife.tipV == Vec2(-100.0, 100.0)
    ensures Tick(Initial(), i).knife.tipSpeedSq == 20000.0
    ensures !Tick(Initial(), i).knife.cut
  {
    SetupKnifePoints();
    var k := WithPoints(Initial().knife, i.sin, i.cos);
    assert k.previousBladeTop == Vec2(560.0, 260.0) && k.bladeTop == Vec2(460.0, 360.0);
    assert Moved(Initial(), i).knife.(body := k.body) == k;
  }

  /**
   * A cut whose box meets the spider's box from the previous tick kills the spider and
   * wins the round within that same tick.
   */
  lemma CutWinsAtOnce(w: World, i: TickInput)
    requires Inv(w) && w.gameState == Playing && w.spider.hitbox.Some?
    requires Tick(w, i).knife.cut
    requires Overlaps(Tick(w, i).knife.cutHitbox.value, w.spider.hitbox.value)
    ensures Tick(w, i).spider.mode == Mode.Dead && Tick(w, i).spider.ticksInState == 0
    ensures Tick(w, i).gameState == Win
  {
    var m := Moved(w, i);
    var k := NextKnife(m.knife);
    assert k == Tick(w, i).knife;
    assert KnifeHitsSpider(k, m.spider.hitbox);
  }

  /** A round is won only by the spider dying, and a dead spider while playing always wins. */
  lemma WinMeansSpiderDead(w: World, i: TickInput)
    requires Inv(w) && w.gameState == Playing
    ensures Tick(w, i).gameState == Win <==> Tick(w, i).spider.mode == Mode.Dead
  {
    var m := Moved(w, i);
    assert Tick(w, i).gameState == NextOutcome(Playing, Tick(w, i).spider.mode == Mode.Dead,
      Tick(w, i).butterfly.hit, m.remainingTime, i.elapsed).0;
  }

  /** The timer stays within [0, 20] as long as the clock never reads before setup. */
  lemma {:induction false} TimerInRange(w: World, ins: seq<TickInput>)
    requires Inv(w) && 0 <= w.remainingTime <= ROUND_SECONDS
    requires forall k :: 0 <= k < |ins| ==> ins[k].elapsed >= 0.0
    ensures 0 <= Run(w, ins).remainingTime <= ROUND_SECONDS
    decreases |ins|
  {
    if ins != [] {
      TimerInRange(Tick(w, ins[0]), ins[1..]);
    }
  }

  /** With a clock that does not go backwards the timer never rises. */
  lemma TimerNeverRises(w: World, i: TickInput, before: real)
    requires Inv(w) && w.remainingTime == RemainingTime(before) && before <= i.elapsed
    ensures Tick(w, i).remainingTime <= w.remainingTime
  {
    if w.gameState == Playing {
      RemainingTimeMonotone(before, i.elapsed);
    }
  }

  /**
   * `update_game` tests the timer it computed on the previous tick: on the tick the clock
   * passes 20 seconds the round goes on with the timer at 0, and only the next tick ends it
   * (unless a win or a death comes first).
   */
  lemma TimeUpLagsOneTick(w: World, i: TickInput, j: TickInput)
    requires Inv(w) && w.gameState == Playing && w.remainingTime > 0
    requires i.elapsed >= ROUND_SECONDS as real
    requires Tick(w, i).spider.mode != Mode.Dead && !Tick(w, i).butterfly.hit
    requires Tick(Tick(w, i), j).spider.mode != Mode.Dead && !Tick(Tick(w, i), j).butterfly.hit
    ensures Tick(w, i).gameState == Playing && Tick(w, i).remainingTime == 0
    ensures Tick(Tick(w, i), j).gameState == TimeUp
  {
    var m := Moved(w, i);
    assert Tick(w, i).gameState == NextOutcome(Playing, Tick(w, i).spider.mode == Mode.Dead,
      Tick(w, i).butterfly.hit, m.remainingTime, i.elapsed).0;
    var w1 := Tick(w, i);
    var m1 := Moved(w1, j);
    assert Tick(w1, j).gameState == NextOutcome(Playing, Tick(w1, j).spider.mode == Mode.Dead,
      Tick(w1, j).butterfly.hit, m1.remainingTime, j.elapsed).0;
  }

  /**
   * While the cut box is still open the dead spider is hit again: its halves are rebuilt at
   * the spawn point and its state clock restarts, so the halves can be created more than
   * once.
   */
  lemma OpenCutRespawnsHalves(w: World, i: TickInput)
    requires Inv(w) && w.spider.mode == Mode.Dead && w.spider.hitbox.Some?
    requires w.knife.cutHitbox.Some? && w.knife.ticksSinceCut + 1 < CUT_WINDOW
    requires Overlaps(w.knife.cutHitbox.value, w.spider.hitbox.value)
    ensures Tick(w, i).spider.ticksInState == 0
    ensures Tick(w, i).spider.leftHalf == Some(Fallen(LeftHalfAt(w.spider.x, w.spider.y)))
    ensures Tick(w, i).spider.rightHalf == Some(Fallen(RightHalfAt(w.spider.x, w.spider.y)))
  {
    var m := Moved(w, i);
    var k := NextKnife(m.knife);
    assert !k.cut && k.cutHitbox == w.knife.cutHitbox;
    assert KnifeHitsSpider(k, m.spider.hitbox);
  }

  /** Once the spider is dead its halves are mirror images about its last centre line. */
  ghost predicate HalvesMirrored(s: SpiderState)
    requires HalvesOk(s)
  {
    s.mode == Mode.Dead ==> Mirrored(s.leftHalf.value, s.rightHalf.value, s.x as real)
  }

  /** The halves fly apart symmetrically for as long as the round runs. */
  lemma {:induction false} HalvesStayMirrored(w: World, ins: seq<TickInput>)
    requires Inv(w) && HalvesMirrored(w.spider)
    ensures HalvesMirrored(Run(w, ins).spider)
    decreases |ins|
  {
    if ins != [] {
      var m := Moved(w, ins[0]);
      var s := m.spider.(hit := KnifeHitsSpider(NextKnife(m.knife), m.spider.hitbox));
      var s' := NextSpider(s);
      assert s' == Tick(w, ins[0]).spider;
      if s.hit {
        SpawnMirrored(s.x, s.y);
        FallKeepsMirror(LeftHalfAt(s.x, s.y), RightHalfAt(s.x, s.y), s.x as real);
      } else if s.mode == Mode.Dead {
        FallKeepsMirror(s.leftHalf.value, s.rightHalf.value, s.x as real);
      }
      HalvesStayMirrored(Tick(w, ins[0]), ins[1..]);
    }
  }
}
