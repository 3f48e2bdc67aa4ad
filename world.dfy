/**
 * The whole game state as one value and one tick of `update` as a function of it: the
 * specification the imperative `Simulation.Game` is proved against.
 */
module Worlds {
  import opened Wrappers
  import opened Geometry
  import opened RigidBodies
  import opened Butterflies
  import opened Knives
  import opened Tether
  import opened Spiders
  import opened Collisions
  import opened Outcome

  /**
   * What one tick takes from outside the core: the neutral command, the seconds elapsed
   * since setup (the clock), and the sine and cosine of the knife's orientation at the
   * start of the tick (the trigonometry).
   */
  datatype TickInput = TickInput(cmd: Command, elapsed: real, sin: real, cos: real)

  /** `args.state`: the three actors, the outcome, the countdown and the engine's tick
      counter. */
  datatype World = World(
    butterfly: ButterflyState, knife: KnifeState, spider: SpiderState,
    gameState: GameState, remainingTime: int, tickCount: nat)

  /**
   * What every reachable state satisfies and a tick needs: every body can be integrated,
   * the spider's halves exist exactly while it is dead, a cut leaves the cooldown at 0, and
   * until the spider has its first box no cut hitbox exists and none can open this tick
   * (the cooldown has not run out), so the knife check never meets a missing box.
   */
  ghost predicate Inv(w: World) {
    Massive(w.butterfly.body) && Massive(w.knife.body) && HalvesOk(w.spider) &&
    (w.knife.cut ==> w.knife.ticksSinceCut == 0) &&
    (w.knife.cutHitbox.Some? ==> w.spider.hitbox.Some?) &&
    (w.spider.hitbox.None? ==> w.knife.ticksSinceCut <= CUT_COOLDOWN)
  }

  /** The sine and cosine of 270 degrees, the knife's orientation at setup. */
  const SIN_270: real := -1.0
  const COS_270: real := 0.0

  /** The state `setup` produces. */
  function Initial(): (w: World)
    ensures Inv(w) && w.gameState == Playing && w.remainingTime == ROUND_SECONDS
    ensures w.tickCount == 0 && w.spider == InitialSpider()
  {
    var b := InitialButterfly();
    var k := MovedToButterfly(SetupKnife(SIN_270, COS_270), b.body.Center());
    World(b, k, InitialSpider(), Playing, ROUND_SECONDS, 0)
  }

  /** `apply_input_commands`: the effective command for the current outcome, applied to
      the butterfly. */
  function WithInput(w: World, cmd: Command): (r: ButterflyState)
    ensures w.gameState == Playing ==> r == Commanded(w.butterfly, cmd)
    ensures w.gameState == Win ==>
            r == Commanded(w.butterfly, Autopilot(w.butterfly.body.Center(), w.tickCount))
    ensures w.gameState == GameState.Dead || w.gameState == TimeUp ==> r == w.butterfly
  {
    match EffectiveCommand(w.gameState, cmd, w.butterfly.body.Center(), w.tickCount)
    case None => w.butterfly
    case Some(c) => Commanded(w.butterfly, c)
  }

  /** Lines 75-81 of `update`: the input, the knife's points, gravity, the tether and the
      integration of both bodies. */
  function Moved(w: World, i: TickInput): (r: World)
    requires Inv(w)
    ensures Inv(r)
    ensures r.spider == w.spider && r.gameState == w.gameState
    ensures r.remainingTime == w.remainingTime && r.tickCount == w.tickCount
  {
    var b := WithInput(w, i.cmd);
    var k := WithPoints(w.knife, i.sin, i.cos);
    var tethered := Tethered(WithGravity(b.body), WithGravity(k.body), k.bottom);
    w.(butterfly := b.(body := Integrated(tethered.0)), knife := k.(body := Integrated(tethered.1)))
  }

  /** Lines 82-88 of `update`: the butterfly's and the knife's own updates, the two
      collision checks around the spider's update, and the outcome. The knife check reads
      the spider box of the previous tick. */
  function Resolved(w: World, elapsed: real): (r: World)
    requires Inv(w)
    ensures Inv(r) && r.tickCount == w.tickCount
  {
    var b := NextButterfly(w.butterfly);
    var k := NextKnife(w.knife);
    var s := NextSpider(w.spider.(hit := KnifeHitsSpider(k, w.spider.hitbox)));
    var b' := WithSpiderCollision(b, s);
    var outcome := NextOutcome(w.gameState, s.mode == Mode.Dead, b'.hit, w.remainingTime, elapsed);
    World(b', k, s, outcome.0, outcome.1, w.tickCount)
  }

  /** `update`: the two phases, each reading what the earlier sub-steps wrote. */
  function NextWorld(w: World, i: TickInput): (r: World)
    requires Inv(w)
    ensures Inv(r) && r.tickCount == w.tickCount
  {
    Resolved(Moved(w, i), i.elapsed)
  }

  /** One engine tick: `update`, after which the engine advances its tick counter. */
  function Tick(w: World, i: TickInput): (r: World)
    requires Inv(w)
    ensures Inv(r) && r.tickCount == w.tickCount + 1
  {
    NextWorld(w, i).(tickCount := w.tickCount + 1)
  }

  /** The state after the given ticks, in order. */
  function Run(w: World, ins: seq<TickInput>): (r: World)
    requires Inv(w)
    ensures Inv(r) && r.tickCount == w.tickCount + |ins|
    decreases |ins|
  {
    if ins == [] then w else Run(Tick(w, ins[0]), ins[1..])
  }
}
