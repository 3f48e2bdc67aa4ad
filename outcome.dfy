/**
 * The outcome state machine (`update_game`) and the input override that depends on it
 * (the first half of `apply_input_commands`).
 */
module Outcome {
  import opened Wrappers
  import opened Geometry
  import opened Butterflies

  /** `playing` is the only state any transition leaves. */
  datatype GameState = Playing | Win | Dead | TimeUp

  const ROUND_SECONDS: int := 20

  /** The scripted command that replaces the player's once the game is won: steer back
      into the middle band [320, 960] and flap every 19th tick while below 360. */
  function Autopilot(p: Vec2, tickCount: nat): (c: Command)
    ensures c.move == -1 <==> p.x > 960.0
    ensures c.move == 1 <==> p.x < 320.0
    ensures c.move == 0 <==> 320.0 <= p.x <= 960.0
    ensures c.flap <==> tickCount % 19 == 0 && p.y < 360.0
  {
    var move := if p.x < 320.0 then 1 else if p.x > 960.0 then -1 else 0;
    Command(tickCount % 19 == 0 && p.y < 360.0, move)
  }

  /** The command `apply_input_commands` acts on: the player's while playing, the
      autopilot's after a win, none at all once dead or out of time. */
  function EffectiveCommand(gs: GameState, cmd: Command, p: Vec2, tickCount: nat): (r: Option<Command>)
    ensures r.None? <==> gs == Dead || gs == TimeUp
    ensures gs == Playing ==> r == Some(cmd)
    ensures gs == Win ==> r == Some(Autopilot(p, tickCount))
  {
    match gs
    case Win => Some(Autopilot(p, tickCount))
    case Dead => None
    case TimeUp => None
    case Playing => Some(cmd)
  }

  /** Twenty minus the whole seconds elapsed, floored at 0: never negative, at most 20
      once the clock has started. */
  function RemainingTime(elapsed: real): (t: int)
    ensures t >= 0
    ensures elapsed >= 0.0 ==> t <= ROUND_SECONDS
    ensures elapsed >= ROUND_SECONDS as real <==> t == 0
    ensures elapsed < ROUND_SECONDS as real ==> t == ROUND_SECONDS - elapsed.Floor
  {
    var left := ROUND_SECONDS - elapsed.Floor;
    if left > 0 then left else 0
  }

  /** The countdown never goes back up as the clock advances. */
  lemma RemainingTimeMonotone(e1: real, e2: real)
    requires e1 <= e2
    ensures RemainingTime(e2) <= RemainingTime(e1)
  {
    assert e1.Floor <= e2.Floor;
  }

  /**
   * `update_game`. Once not playing, neither the state nor the timer changes. While
   * playing, the transitions are tried in priority order: a dead spider wins, else a hit
   * butterfly dies, else a timer that had already reached 0 before this tick ends the
   * round; and on every such tick, the transition tick included, the timer is recomputed
   * from the elapsed time.
   */
  function NextOutcome(gs: GameState, spiderDead: bool, butterflyHit: bool, remaining: int, elapsed: real)
    : (r: (GameState, int))
    ensures gs != Playing ==> r == (gs, remaining)
    ensures gs == Playing ==> r.1 == RemainingTime(elapsed)
    ensures gs == Playing && spiderDead ==> r.0 == Win
    ensures gs == Playing && !spiderDead && butterflyHit ==> r.0 == Dead
    ensures gs == Playing && !spiderDead && !butterflyHit && remaining <= 0 ==> r.0 == TimeUp
    ensures gs == Playing && !spiderDead && !butterflyHit && remaining > 0 ==> r.0 == Playing
  {
    match gs
    case Playing =>
      var next := if spiderDead then Win
                  else if butterflyHit then Dead
                  else if remaining <= 0 then TimeUp
                  else Playing;
      (next, RemainingTime(elapsed))
    case _ => (gs, remaining)
  }
}
