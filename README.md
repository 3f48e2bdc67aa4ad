# Butterfly with a knife: a verified model of the game tick

"Butterfly with a knife" is a small DragonRuby game. The player flaps a butterfly. A knife
hangs from the butterfly on a springy tether. A spider patrols the bottom of the screen.
The knife cuts when it swings through a window of angles fast enough. A cut whose box catches
the spider kills it and wins the round. A butterfly that touches a live spider dies. A round
lasts 20 seconds.

This project models the per-tick game logic of `game/app/main.rb` in Dafny and proves
properties of it. It covers:

- the rigid-body physics: forces, gravity, the tether, and integration with air friction;
- the butterfly, knife and spider updates;
- the two collision gates;
- the outcome state machine, with the autopilot that takes over after a win.

The model has three layers.

- **Value layer.** Each actor's state is a datatype. Each sub-step of `update` is a function
  on those values, and its contract says what the sub-step promises:
  - `RigidBodies`: bodies, `apply_force`, `apply_gravity`, `update_body`;
  - `Butterflies`;
  - `Knives`: `update_knife_points`, `knife_cuts?`, `update_knife`;
  - `Tether`: `apply_connection_force`, `move_knife_to_butterfly`;
  - `Spiders`;
  - `Collisions`;
  - `Outcome`: `update_game`, the input override.
- **Tick specification.** `Worlds` composes those functions in the order of `update`
  (game/app/main.rb:74-88):
  - `NextWorld` is one `update`;
  - `Tick` adds the engine's tick counter;
  - `Run` is a sequence of ticks;
  - `Inv` is the invariant every reachable state keeps.
- **Imperative layer.** The source mutates hashes in place. Each component module therefore
  also has a class whose fields are those hash entries, and methods that update them in place.
  - `Simulation.Game` holds the three records and runs the sub-steps of `update` as method
    calls.
  - Each method is proved to compute its value-level function:
    `ensures State() == Spec(old(State()))`, and `Snapshot() == NextWorld(old(Snapshot()), i)`
    for the whole tick.

`Rounds` proves what holds over whole rounds:
- the outcome is final;
- a dead spider stays dead;
- the patrol bounds hold;
- the cut cooldown spaces cuts at least 22 ticks apart;
- a cut wins in the same tick;
- the timer stays in range and lags one tick;
- the halves of the dead spider stay mirror images.

Inputs from outside the core are parameters of each tick (`Worlds.TickInput`):
- the player's command (flap, move in {-1, 0, 1});
- the seconds elapsed since `setup`;
- a pair of reals standing for the sine and cosine of the knife's angle at the start of
  the tick. The tick accepts any pair, tied neither to the knife's angle nor to
  sin² + cos² = 1. Every lemma in `Rounds` except `FirstTickTipJump` holds for every pair,
  so it holds for the pair the game computes. `FirstTickTipJump` takes the exact pair of
  270 degrees, (-1, 0). That is the knife's angle on the first tick, because `setup` does
  not integrate.

Physics is over exact `real`.

### Behaviour of the code worth knowing

- **A cut kills within the same tick.**
  - `update_knife` (line 83) opens the cut box before `check_knife_collision` (line 84)
    reads it.
  - `update_spider` (line 85) then kills the spider, and `update_game` (line 87) declares
    the win.
  - So the cut, the hit, the death and the win all happen in one tick
    (`Rounds.CutWinsAtOnce`).
- **The first tick shows a spurious tip jump.**
  - `setup` computes the blade tip (line 26) before `move_knife_to_butterfly` (line 29)
    shifts the knife.
  - On the first tick the tip therefore appears to move by (-100, 100), squared speed 20000.
  - This cannot cut, because the cooldown counter starts at 0 (`Rounds.FirstTickTipJump`).
- **The halves can be spawned more than once.**
  - `check_knife_collision` sets `hit` on every tick that the cut is younger than 3 ticks
    and its box overlaps the spider box that the check reads.
  - After the kill, that box can sit 2 units from the box that was hit: it was placed before
    the spider's last walk step. The dead spider can therefore be hit again on the
    following ticks, as long as the boxes still overlap.
  - Each such hit makes `update_spider` (lines 226-237) rebuild both halves at the spawn
    point and restart `ticks_in_state` (`Rounds.OpenCutRespawnsHalves`).
- **The butterfly hitbox spans x - 70 to x + 50** (line 180). Its centre line is 10 to the
  left of the butterfly.
- **Flap and move write the force accumulators directly.** They add to `F_y` and `F_x`
  without going through `apply_force` (lines 105-111).
- **The time-up test lags one tick.**
  - `update_game` tests the timer from the previous tick before recomputing it.
  - On the tick the clock passes 20 s, the round continues with the timer at 0.
  - Only the next tick ends it (`Rounds.TimeUpLagsOneTick`).

## Model

| member | source | states |
|---|---|---|
| Geometry.Overlaps | game/app/main.rb:216-219 | two boxes of non-negative size that overlap share a point, their common lower-left corner; this closed-interval definition stands in for `intersect_rect?` |
| Geometry.SharedPointOverlaps | game/app/main.rb:216-219 | boxes sharing a point overlap, so together with `Overlaps` the test means "have a point in common" |
| Geometry.Rotate | game/app/main.rb:128-133 | the zero offset rotates to the centre itself |
| Geometry.RotateQuarterTurns | game/app/main.rb:128-133 | at 0, 90 and 270 degrees the offset is kept, turned to (−y, x), or turned to (y, −x) |
| Geometry.RotateFollowsPivot | game/app/main.rb:128-133 | rotating about a shifted centre shifts the rotated point by the same amount |
| Geometry.RotatePreservesDistance | game/app/main.rb:128-133 | with sin² + cos² = 1 the rotated point keeps its distance from the centre |
| Geometry.WrapDegrees | game/app/main.rb:147 | Ruby's floored `angle % 360` lands in [0, 360) and leaves angles already there unchanged |
| Geometry.WrapDegreesPeriodic | game/app/main.rb:147 | wrapping ignores whole turns: a + 360k wraps to where a does |
| RigidBodies.BuildRigidBody | game/app/main.rb:42-47 | a body at rest at the given place and angle, with mass 1 and inertia 0 |
| RigidBodies.BuildPointMass | game/app/main.rb:34-36 | a body at rest with the given mass and inertia 1, so a positive mass gives a body that can be integrated |
| RigidBodies.BuildRodMass | game/app/main.rb:38-40 | a body at rest with the given mass whose inertia satisfies 12·I = m·L² |
| RigidBodies.WithForce | game/app/main.rb:307-313 | the force is added to the accumulators; with an application point the torque grows by (point − centre) × force; nothing else changes |
| RigidBodies.ForcesCommute | game/app/main.rb:307-313 | the order in which two forces are applied does not matter |
| RigidBodies.WithGravity | game/app/main.rb:136-138 | F_y decreases by 0.1·m and nothing else changes |
| RigidBodies.Integrated | game/app/main.rb:140-151 | velocities become v·0.99 + F/m (spin: torque/I), the position advances by the new velocity, the angle is wrapped into [0, 360), accumulators are cleared, mass and inertia are kept |
| RigidBodies.FreeBodyIsDamped | game/app/main.rb:140-151 | with no force the squared speed shrinks by the factor 0.9801 and the spin by 0.99 |
| RigidBodies.RestingBodyFalls | game/app/main.rb:136-151 | a body at rest under gravity alone falls 0.1 in its first tick and does not drift sideways |
| RigidBodies.RigidBody.constructor | game/app/main.rb:42-47 | the record holds the given body state |
| RigidBodies.RigidBody.ApplyForce | game/app/main.rb:307-313 | the record becomes `WithForce` of its old state |
| RigidBodies.RigidBody.ApplyGravity | game/app/main.rb:136-138 | the record becomes `WithGravity` of its old state |
| RigidBodies.RigidBody.Integrate | game/app/main.rb:140-151 | the record becomes `Integrated` of its old state |
| Butterflies.InitialButterfly | game/app/main.rb:15-18 | a butterfly at rest at (640, 360) with mass 1, inertia 1 and angle 0; no hitbox yet; both counters at 0 |
| Butterflies.ButterflyHitboxAt | game/app/main.rb:180-185 | the 120 × 130 box contains the butterfly's position, starts at its height, and has its centre line 10 to the left of it |
| Butterflies.Commanded | game/app/main.rb:105-111 | a flap adds 6 to F_y and sets ticks_since_flap to −1; a move adds move·0.15 to F_x; nothing else changes |
| Butterflies.NextButterfly | game/app/main.rb:177-186 | both counters grow by one and the hitbox is (x − 70, y, 120, 130) at the current position |
| Butterflies.FlapRestartsCounter | game/app/main.rb:105-108 | after a flap, `update_butterfly` (line 178) brings ticks_since_flap to exactly 0 |
| Butterflies.Butterfly.constructor | game/app/main.rb:15-18 | the record is the initial butterfly with a fresh body |
| Butterflies.Butterfly.ApplyCommand | game/app/main.rb:105-111 | the record becomes `Commanded` of its old state |
| Butterflies.Butterfly.Update | game/app/main.rb:177-186 | the record becomes `NextButterfly` of its old state |
| Knives.SetupKnife | game/app/main.rb:19-26 | a knife at rest at (640, 260) with mass 2, inertia 150 and angle 270; points placed, previous tip equal to the tip; no cut, cooldown 0 and audio counter 0 |
| Knives.TipVelocity | game/app/main.rb:203-206 | the previous tip plus the velocity is the current tip |
| Knives.CutGuard | game/app/main.rb:212-213 | the guard demands an angle in (100, 120), a spin below −3, a squared tip speed above 49 and a cooldown of at least 21; a cooldown of 20 or less, or a squared speed of 49 or less, rules out a cut |
| Knives.CutHitboxAt | game/app/main.rb:195-198 | the 160 × 160 cut box contains the tip, which sits on its left edge 130 above its bottom |
| Knives.WithPoints | game/app/main.rb:114-119 | the pivot and tip are the rotated offsets (0, 100) and (0, −80), the old tip becomes the previous tip, nothing else changes |
| Knives.SpeedThresholdSquared | game/app/main.rb:207-213 | for a non-negative speed, speed > 7 exactly when speed² > 49, so comparing the squared speed is the same test |
| Knives.NextKnife | game/app/main.rb:188-214 | the tip velocity is tip − previous tip; `cut` holds exactly when 100 < angle < 120, spin < −3, speed > 7 and the pre-increment cooldown > 20; a cut records the tip, opens the box there and resets the cooldown, otherwise the cooldown grows by one and the last box stays |
| Knives.StillTipNeverCuts | game/app/main.rb:202-213 | a tip that has not moved cannot cut |
| Knives.Knife.constructor | game/app/main.rb:19-26 | the record is `SetupKnife` with a fresh body |
| Knives.Knife.UpdatePoints | game/app/main.rb:114-119 | the record becomes `WithPoints` of its old state |
| Knives.Knife.Cuts | game/app/main.rb:202-214 | the tip velocity and squared speed are recorded and the answer is the cut guard |
| Knives.Knife.Update | game/app/main.rb:188-200 | the record becomes `NextKnife` of its old state |
| Tether.Tethered | game/app/main.rb:153-175 | the butterfly is pulled by 0.03·(pivot − butterfly), the knife by exactly the opposite force applied at the pivot, the butterfly's torque is unchanged, and only the accumulators change |
| Tether.SlackWhenJoined | game/app/main.rb:153-175 | a butterfly sitting on the pivot feels no pull and neither does the knife |
| Tether.MovedToButterfly | game/app/main.rb:300-305 | the knife is translated by butterfly − pivot; nothing else changes |
| Tether.MovedPivotMeetsButterfly | game/app/main.rb:300-305 | after the move the pivot recomputed at the same angle lies on the butterfly |
| Tether.ApplyConnectionForce | game/app/main.rb:153-175 | both body records become `Tethered` of their old states |
| Tether.MoveKnifeToButterfly | game/app/main.rb:300-305 | the knife record becomes `MovedToButterfly` of its old state |
| Spiders.InitialSpider | game/app/main.rb:27 | the spider starts at (1000, 0), walking left, with its state clock at 0, no hitbox and no halves |
| Spiders.SpiderHitboxAt | game/app/main.rb:222-224 | the 130 × 100 box is centred on the spider's x and starts 60 above its y |
| Spiders.Walked | game/app/main.rb:239-246 | a step moves x by exactly 2, leftwards exactly when facing left; at or below 130 the spider faces right, strictly between the bounds it keeps its direction, at or above 1150 it faces left; nothing else changes |
| Spiders.LeftHalfAt | game/app/main.rb:230-233 | a unit point mass at (x − 33, y + 110) with velocity (−4, 8) and spin 2 |
| Spiders.RightHalfAt | game/app/main.rb:234-237 | a unit point mass at (x + 33, y + 110) with velocity (4, 8) and spin −2 |
| Spiders.Fallen | game/app/main.rb:248-252 | a half falling for one tick keeps its mass and inertia |
| Spiders.NextSpider | game/app/main.rb:221-254 | the hitbox is taken at the old position; the spider is dead exactly when it was hit or already dead; a hit restarts the state clock and spawns then drops both halves; a walking spider moves ±2 and turns at 130 and 1150; otherwise x and direction stay |
| Spiders.Killed | game/app/main.rb:226-237 | a hit makes the spider dead with a restarted state clock and both halves present |
| Spiders.HalvesFallen | game/app/main.rb:247-252 | dropping the halves keeps the halves invariant |
| Spiders.PatrolStep | game/app/main.rb:239-246 | a spider on an even x inside [130, 1150], facing away from the bound it stands on, stays so after an update |
| Spiders.SpawnMirrored | game/app/main.rb:230-237 | the two halves are spawned as mirror images about the spider's x |
| Spiders.FallKeepsMirror | game/app/main.rb:247-252 | falling keeps the two halves mirror images |
| Spiders.Spider.Valid | game/app/main.rb:226-237 | the record's halves exist exactly while dead and can be integrated |
| Spiders.Spider.constructor | game/app/main.rb:27 | the record is the initial spider |
| Spiders.Spider.Update | game/app/main.rb:221-254 | the record becomes `NextSpider` of its old state, with fresh halves on a hit |
| Spiders.Spider.Die | game/app/main.rb:226-237 | the record becomes `Killed` of its old state |
| Spiders.Spider.Step | game/app/main.rb:239-246 | the record takes one patrol step |
| Spiders.Spider.DropHalves | game/app/main.rb:247-252 | both half records fall for one tick |
| Collisions.KnifeHitsSpider | game/app/main.rb:216-219 | a knife hit needs a cut box, a cut younger than 3 ticks, and an overlap of the cut box with the spider's box |
| Collisions.WithSpiderCollision | game/app/main.rb:256-260 | a dead spider leaves the butterfly as it is; otherwise `hit` becomes whether the two boxes overlap and nothing else changes |
| Collisions.CheckKnifeCollision | game/app/main.rb:216-219 | the spider's `hit` becomes: cooldown < 3, a cut box exists and it overlaps the spider's box from the previous tick |
| Collisions.CheckSpiderCollision | game/app/main.rb:256-260 | the butterfly record becomes `WithSpiderCollision` of its old state |
| Outcome.Autopilot | game/app/main.rb:93-100 | after a win: move −1 exactly when x > 960, +1 exactly when x < 320, 0 in between; flap exactly when tick_count mod 19 = 0 and y < 360 |
| Outcome.EffectiveCommand | game/app/main.rb:90-104 | no command at all when dead or out of time, the player's while playing, the autopilot's after a win |
| Outcome.RemainingTime | game/app/main.rb:272 | below 20 s the timer is 20 minus the whole seconds elapsed; it is never negative, at most 20 once the clock started, and 0 exactly from 20 s on |
| Outcome.RemainingTimeMonotone | game/app/main.rb:272 | the timer never rises as the clock advances |
| Outcome.NextOutcome | game/app/main.rb:262-274 | a finished round keeps its state and timer; while playing, dead spider ⇒ win, else hit butterfly ⇒ dead, else old timer ≤ 0 ⇒ time up, else still playing, and the timer is recomputed from the clock |
| Worlds.Initial | game/app/main.rb:14-32 | the state after `setup` satisfies the invariant, is playing with a 20 s timer and tick 0 |
| Worlds.WithInput | game/app/main.rb:90-112 | while playing, the player's command is applied; after a win, the autopilot's; when lost or out of time, the butterfly is left as it is |
| Worlds.Moved | game/app/main.rb:75-81 | the first half of `update` keeps the invariant and touches neither the spider nor the outcome |
| Worlds.Resolved | game/app/main.rb:82-88 | the second half of `update` keeps the invariant |
| Worlds.NextWorld | game/app/main.rb:74-88 | one `update` keeps the invariant, so every sub-step's precondition is met on every tick |
| Worlds.Tick | game/app/main.rb:7-12 | one engine tick keeps the invariant and advances the tick counter by one |
| Worlds.Run | game/app/main.rb:7-12 | any number of ticks keeps the invariant and advances the counter by that number |
| Rounds.OutcomeIsFinal | game/app/main.rb:262-274 | once won, lost or out of time, the state and timer never change again |
| Rounds.InputIgnoredWhenOver | game/app/main.rb:101-102 | once lost or out of time, the player's command has no effect on the tick |
| Rounds.SpiderStaysDead | game/app/main.rb:221-254 | no path brings a dead spider back |
| Rounds.InitialOnPatrol | game/app/main.rb:27 | the spider starts on its patrol |
| Rounds.SpiderStaysOnPatrol | game/app/main.rb:239-246 | the patrol invariant holds on every later tick |
| Rounds.SpiderStaysInBounds | game/app/main.rb:239-246 | from `setup`, the spider's x stays within [130, 1150] forever |
| Rounds.NoCutDuringCooldown | game/app/main.rb:188-214 | a counter of c rules out a cut in the next 21 − c ticks, during which it just counts up |
| Rounds.CutsAreSpaced | game/app/main.rb:188-214 | after a cut no cut happens in the next 21 ticks, so cuts are at least 22 ticks apart |
| Rounds.NoCutAtStart | game/app/main.rb:19-25 | no cut happens in the first 21 ticks of a round |
| Rounds.SetupKnifePoints | game/app/main.rb:19-29 | after `setup` the knife's centre is (540, 360) while its recorded tip is still (560, 260) |
| Rounds.FirstTickTipJump | game/app/main.rb:26-29 | on the first tick the tip velocity is (−100, 100), squared speed 20000, and still no cut happens |
| Rounds.CutWinsAtOnce | game/app/main.rb:83-87 | a cut whose box meets the spider's box kills the spider and wins the round in the same tick |
| Rounds.WinMeansSpiderDead | game/app/main.rb:264-266 | while playing, a tick ends in a win exactly when the spider is dead after it |
| Rounds.TimerInRange | game/app/main.rb:272 | with a clock that never reads negative the timer stays within [0, 20] |
| Rounds.TimerNeverRises | game/app/main.rb:272 | with a clock that does not go back the timer never rises from tick to tick |
| Rounds.TimeUpLagsOneTick | game/app/main.rb:269-272 | the tick the clock passes 20 s leaves the round playing at 0 s; the next tick ends it |
| Rounds.OpenCutRespawnsHalves | game/app/main.rb:216-237 | a dead spider whose box the still-open cut box overlaps is hit again: the state clock restarts and both halves are rebuilt at the spawn point |
| Rounds.HalvesStayMirrored | game/app/main.rb:226-252 | the halves of a dead spider stay mirror images about its x on every tick |
| Simulation.Game.constructor | game/app/main.rb:14-32 | the game records hold exactly `Initial` and satisfy the game invariant |
| Simulation.Game.ApplyInputCommands | game/app/main.rb:90-112 | the butterfly record becomes the effective command applied to it |
| Simulation.Game.UpdateGame | game/app/main.rb:262-274 | outcome and timer become `NextOutcome` of the old ones |
| Simulation.Game.Update | game/app/main.rb:74-88 | the records become `NextWorld` of their old state, keeping the invariant |
| Simulation.Game.Move | game/app/main.rb:75-81 | the records become `Moved` of their old state |
| Simulation.Game.Resolve | game/app/main.rb:82-88 | the records become `Resolved` of their old state |
| Simulation.Game.Tick | game/app/main.rb:7-12 | `update` followed by the engine's counter step, as `Worlds.Tick` |

## Left out

- Rendering, sprites and the UI (game/app/main.rb:315-454) are presentation only. This
  includes the audio cues and their throttling, which use `rand`.
- `ticks_since_audio`: the model only counts the butterfly's and the knife's counters up by
  one per tick. `render_butterfly` reads both counters and sets them to -1 when a cue plays
  (lines 334-335 and 341-342), and the model does not. After the first cue, the model's
  counters no longer match the program's.
- `process_inputs` (game/app/main.rb:66-72) reads the DragonRuby keyboard. The neutral
  command it builds is a parameter of each tick instead.
- The clock (`Time.now`, lines 28 and 272) is replaced by the elapsed seconds, passed in with
  each tick. `start_time` is not stored.
- `PointRotator` computes `Math.sin`/`Math.cos` (lines 124-125). The sine and cosine of the
  knife's angle are parameters of each tick. `setup` uses the exact values of 270 degrees
  (-1, 0).
- Knives.NextKnife stores the squared tip speed, not `Math.sqrt` of it (lines 207-209), and
  compares it with 49. `Knives.SpeedThresholdSquared` shows the two tests agree.
- `intersect_rect?` is a DragonRuby library method and is not part of this model.
  `Geometry.Overlaps` is a closed-interval overlap of axis-aligned rectangles standing in for
  it. Its behaviour on touching edges is an assumption.
- IEEE floating point is not modelled: physics is over exact reals. Nothing about rounding
  or numerical stability is claimed.
- RigidBodies.BuildRodMass states 12·I = m·L² rather than the source's `/ 12` directly. For
  the knife, `Knives.SetupKnife` states the concrete inertia 150.
- The `tick` glue and `$gtk.reset` (line 456) are not modelled; `$debug` is not read by the
  core. The engine's `tick_count` is part of the state and `Tick` advances it.
- The commented-out `line_circle_intersection` (lines 276-298) is dead code.
- The spider's `idle` state is never entered by any code path. The model keeps it in the
  state type and leaves such a spider where it is, as the source's `case` does.
