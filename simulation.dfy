/**
 * The game as the engine holds it: `args.state` with the butterfly, the knife and the spider
 * as records updated in place, and `update` as the sequence of in-place sub-steps of the
 * source, proved to compute `Worlds.NextWorld`.
 */
module Simulation {
  import opened Wrappers
  import opened RigidBodies
  import opened Butterflies
  import opened Knives
  import opened Tether
  import opened Spiders
  import opened Collisions
  import opened Outcome
  import opened Worlds

  class Game {
    const butterfly: Butterfly
    const knife: Knife
    const spider: Spider
    var gameState: GameState
    var remainingTime: int
    var tickCount: nat

    /** The whole state as a value. */
    function Snapshot(): World
      reads this, butterfly, butterfly.body, knife, knife.body, spider, spider.leftHalf, spider.rightHalf
    {
      World(butterfly.State(), knife.State(), spider.State(), gameState, remainingTime, tickCount)
    }

    /** No two records share a body, the spider keeps its own invariant, and the value
        state satisfies `Inv`. */
    ghost predicate Valid()
      reads this, butterfly, butterfly.body, knife, knife.body, spider, spider.leftHalf, spider.rightHalf
    {
      butterfly.body != knife.body &&
      (spider.leftHalf != null ==> spider.leftHalf != butterfly.body && spider.leftHalf != knife.body) &&
      (spider.rightHalf != null ==> spider.rightHalf != butterfly.body && spider.rightHalf != knife.body) &&
      spider.Valid() && Inv(Snapshot())
    }

    /** `setup`: the three records, the knife hung from the butterfly, a full round. */
    constructor ()
      ensures Valid() && Snapshot() == Initial()
    {
      var b := new Butterfly();
      var k := new Knife(SIN_270, COS_270);
      var s := new Spider();
      MoveKnifeToButterfly(k, b);
      butterfly, knife, spider := b, k, s;
      gameState, remainingTime, tickCount := Playing, ROUND_SECONDS, 0;
    }

    /** `apply_input_commands`. */
    method ApplyInputCommands(cmd: Command)
      modifies butterfly, butterfly.body
      ensures butterfly.State() == WithInput(old(Snapshot()), cmd)
    {
      var command := cmd;
      match gameState {
        case Win =>
          var move := 0;
          if butterfly.body.x > 960.0 {
            move := -1;
          }
          if butterfly.body.x < 320.0 {
            move := 1;
          }
          command := Command(tickCount % 19 == 0 && butterfly.body.y < 360.0, move);
        case Dead =>
          return;
        case TimeUp =>
          return;
        case Playing =>
      }
      butterfly.ApplyCommand(command);
    }

    /** `update_game`. */
    method UpdateGame(elapsed: real)
      modifies this
      ensures (gameState, remainingTime)
           == NextOutcome(old(gameState), spider.mode == Mode.Dead, butterfly.hit, old(remainingTime), elapsed)
      ensures tickCount == old(tickCount)
    {
      if gameState == Playing {
        if spider.mode == Mode.Dead {
          gameState := Win;
        } else if butterfly.hit {
          gameState := GameState.Dead;
        } else if remainingTime <= 0 {
          gameState := TimeUp;
        }
        var left := ROUND_SECONDS - elapsed.Floor;
        remainingTime := if left > 0 then left else 0;
      }
    }

    /** `update`: the sub-steps in order. */
    method Update(i: TickInput)
      requires Valid()
      modifies this, butterfly, butterfly.body, knife, knife.body, spider, spider.leftHalf, spider.rightHalf
      ensures Valid()
      ensures Snapshot() == NextWorld(old(Snapshot()), i)
    {
      Move(i);
      Resolve(i.elapsed);
    }

    /** Lines 75-81 of `update`. */
    method Move(i: TickInput)
      requires Valid()
      modifies butterfly, butterfly.body, knife, knife.body
      ensures Valid()
      ensures Snapshot() == Moved(old(Snapshot()), i)
    {
      ApplyInputCommands(i.cmd);
      knife.UpdatePoints(i.sin, i.cos);
      butterfly.body.ApplyGravity();
      knife.body.ApplyGravity();
      ApplyConnectionForce(butterfly, knife);
      butterfly.body.Integrate();
      knife.body.Integrate();
    }

    /** Lines 82-88 of `update`. */
    method Resolve(elapsed: real)
      requires Valid()
      modifies this, butterfly, knife, spider, spider.leftHalf, spider.rightHalf
      ensures Valid()
      ensures Snapshot() == Resolved(old(Snapshot()), elapsed)
    {
      butterfly.Update();
      knife.Update();
      CheckKnifeCollision(knife, spider);
      spider.Update();
      CheckSpiderCollision(butterfly, spider);
      UpdateGame(elapsed);
    }

    /** One engine tick: `update`, then the engine's tick counter advances. */
    method Tick(i: TickInput)
      requires Valid()
      modifies this, butterfly, butterfly.body, knife, knife.body, spider, spider.leftHalf, spider.rightHalf
      ensures Valid()
      ensures Snapshot() == Worlds.Tick(old(Snapshot()), i)
    {
      Update(i);
      tickCount := tickCount + 1;
    }
  }
}
