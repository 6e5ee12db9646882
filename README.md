# Horizontal directional drilling simulator — verified model of the drilling core

The game (`sketch.js`) lets a player steer a drill bit from a surface rig,
under a river and past boulders, to a goal box. This project models its
gameplay core in Dafny:

- **Drill state machine.** The states are PAUSED, DRILLING, CONNECTION, STUCK, WIN and LOSE.
  The player acts through three operations: toggle bias, start/stop and pull back.
  Each frame, one tick runs a drill step while DRILLING and counts down a pipe connection.
- **Path ledger.** Each step records one (position, heading) snapshot.
  After every `pipeLength` (68) steps a new pipe has to be connected.
  Pull-back cuts the path at a pipe joint and archives the abandoned suffix.
  Starts and side-tracks are counted.
- **Terrain classification.** A sampled pixel is matched exactly against the palette.
  Goal, boulder and the losing colours decide WIN, STUCK or LOSE.
- **Scoring.** The end-of-run reward is computed from the path lengths and the three counters.

Layout, one module per component:

- `geometry.dfy` (`Geometry`): exact 2D vectors, the 600×400 canvas bounds, and the 1.5-unit proximity test.
  The test is done on squared distances, so no square root is needed.
- `terrain.dfy` (`Terrain`): the palette and the pixel classifier.
- `ledger.dfy` (`Ledger`): path segments, the pipe length, the pull-back cut, the archived lengths and the side-track test.
- `scoring.dfy` (`Scoring`): `Math.ceil` division, the penalty multipliers and the reward formula.
- `game.dfy` (`Game`): the class `Simulation`.
  Its fields are the game's globals: `pos`, `dir`, `bias`, `path`, `pathPosition`, `oldPaths`, the three counters, `state` and `connectionCountDown`.
  Its methods are the player actions, the drill step and the frame tick.
  Its object invariant `Valid()` holds after every operation. It says:
  - `bias` is 1 or -1;
  - `pathPosition == |path| - 1`;
  - `sideTrackCount <= startCount`;
  - `stuckCount <= 3`, and `stuckCount == 3` only in LOSE;
  - STUCK implies `1 <= stuckCount < 3`;
  - CONNECTION implies a non-empty path whose length is a multiple of 68, with a countdown in 1..5;
  - every archived suffix holds between 2 and 69 segments.

Points where the code behaves differently from what one might expect, all modelled as the code has them:

- After leaving the canvas, the bit is set to LOSE, but the terrain test still runs afterwards and can overwrite that state.
  A goal, boulder or hazard colour wins over the bounds check; only a passable colour keeps the LOSE.
- A completed pipe sets CONNECTION, but the terrain test of the same step can override it.
  It may become STUCK, WIN or LOSE; the countdown is then still re-armed to 5.
- `draw` counts the connection down in the same frame in which `drill` started it.
  A tick that completes a pipe therefore leaves the countdown at 4, not 5.
- `startDrill` does not reset `connectionCountDown`.

## Model

| member | source | states |
|---|---|---|
| `Terrain.Classify` | sketch.js:421-447 | Only the first three channels are compared, exactly, in the order goal, boulder, then sky/river/boundary. Goal iff the goal colour; Boulder iff the boulder colour; Hazard iff one of the three losing colours; Passable iff none of the five. |
| `Terrain.AlphaIgnored` | sketch.js:422-426 | Changing the alpha channel never changes the classification. |
| `Terrain.GroundIsPassable` | sketch.js:34-35 | A ground-coloured pixel, with any alpha, lets drilling continue. |
| `Ledger.PipeLengthDerivation` | sketch.js:51-54 | `floor(0.87688219663 * 80) - 2` is 68, the pipe length used everywhere. |
| `Ledger.Cut` | sketch.js:138 | `floor((pathPosition - 1) / 68) * 68` is a multiple of 68 with `cut < pathPosition <= cut + 68`: the largest pipe joint strictly below `pathPosition`. This holds for negative positions too. |
| `Ledger.CutOfPath` | sketch.js:138-140 | For a path of n segments, pull-back finds a joint (`cut > 0`) iff n >= 70. The archived suffix then holds between 2 and 69 segments. |
| `Ledger.TotalLengthConcat` | sketch.js:555-558 | The archived-length sum is additive over concatenation of the archive. |
| `Ledger.PullBackKeepsDrilledLength` | sketch.js:140-141 | Archiving `path[cut..]` and truncating to `path[..cut]` leaves the live plus archived length unchanged. |
| `Ledger.ResumeAfterPullBackSideTracks` | sketch.js:104-122 | Pull-back restores the bit to the last kept snapshot. Resuming there is a side-track provided the first archived point is either one step along that snapshot's heading, with the step shorter than 1.5, or the very same point. The second case arises after an earlier pull-back to the same joint, because the next segment is then recorded at the restored position. The model does not prove that every path meets one of the two conditions: step lengths are an input. |
| `Scoring.CeilDiv` | sketch.js:563-575 | `Math.ceil(a / b)` for natural a and positive b: the least q with `q * b >= a`. |
| `Scoring.MultiplierValues` | sketch.js:563-577 | With a pipe length of 68, a start costs 20, a side-track 40 and a stuck event 100. |
| `Scoring.WinScore` | sketch.js:536-582 | On WIN the reward is 5000, less twice the path length, the archived lengths, 20 per start, 40 per side-track and 100 per stuck event. The live path is charged twice, and the result is not clamped. |
| `Scoring.LossScore` | sketch.js:536-582 | Otherwise the reward is 1000, less the remaining distance, the path length, the archived lengths, 20 per start, 40 per side-track and 100 per stuck event. |
| `Scoring.PullBackKeepsScore` | sketch.js:545-560 | With the remaining distance held fixed, a pull-back does not change a losing score, since it keeps the drilled length. On a win, it raises the score by the number of archived segments, because those are charged once instead of twice. Pull-back also moves the bit, so the remaining distance of a later loss is measured from the new position; that effect is outside this lemma. |
| `Scoring.LossExample` | sketch.js:536-582 | Take a loss 40 short of the goal, with 300 live and 50 archived segments, 2 starts, 1 side-track and 1 stuck event. It scores 430. |
| `Game.StepVerdict` | sketch.js:405-447 | Gives the state after a drill step. WIN iff the goal colour. STUCK iff a boulder is hit before the third time. LOSE iff the third boulder, a hazard colour, or a passable colour off the canvas. CONNECTION iff a passable colour on the canvas with a completed pipe, and DRILLING iff the same without one. Never PAUSED. |
| `Game.Simulation.constructor` | sketch.js:382 | Setup resets the game through `startDrill`. The connection countdown starts at 0. |
| `Game.Simulation.StartDrill` | sketch.js:271-282 | Establishes the reset state and `Valid()`. The path and archive are empty and `pathPosition == -1`. The three counters are 0, `bias == 1` and the state is PAUSED. The bit is at (90, 102) on the start heading. |
| `Game.Simulation.ToggleBias` | sketch.js:100-102 | `bias` becomes `-bias` and nothing else changes. `bias` stays in {1, -1}, and two toggles restore it. |
| `Game.Simulation.StartStop` | sketch.js:104-133 | PAUSED or STUCK goes to DRILLING with `startCount + 1`. `sideTrackCount` grows by one exactly when the last archived path starts within 1.5 of the bit. DRILLING goes to PAUSED. WIN or LOSE resets to a fresh run. CONNECTION is left alone. `sideTrackCount <= startCount` is kept. |
| `Game.Simulation.PullBack` | sketch.js:135-148 | In CONNECTION, WIN or LOSE nothing changes; otherwise the state becomes PAUSED. If the cut is positive: the new path followed by the new archive entry is the old path; the path length is the cut, a positive multiple of 68 below the old length; `pos` and `dir` are the last kept snapshot. Otherwise the ledger, `pos` and `dir` are unchanged. The archive only grows at the end, and the drilled length is preserved. |
| `Game.Simulation.Retract` | sketch.js:139-145 | Archives `path[cut..]`, truncates to `path[..cut]`, and restores `pos` and `dir` from the new last segment. |
| `Game.Simulation.Drill` | sketch.js:386-448 | Appends exactly one segment, (old position, new heading), and sets `pathPosition` to the last index. The new position is old position + heading. The countdown is re-armed to 5 exactly when the new path length is a multiple of 68. `stuckCount` grows exactly on a boulder. The state is `StepVerdict`. |
| `Game.Simulation.Advance` | sketch.js:405-419 | Records the snapshot and arms a connection on a completed pipe. Then it moves the bit and sets LOSE off the canvas. |
| `Game.Simulation.Land` | sketch.js:421-447 | Applies the pixel's verdict: WIN, STUCK with `stuckCount + 1` (LOSE at the third time), LOSE, or no change. |
| `Game.Simulation.Tick` | sketch.js:586-688 | PAUSED, STUCK, WIN and LOSE are left unchanged. CONNECTION counts down, with the path untouched, and returns to DRILLING when the count reaches 0. DRILLING is one drill step, and a pipe it completes is counted down once in the same frame. `Valid()` (`stuckCount <= 3`, STUCK implies `1 <= stuckCount < 3`) is kept. |
| `Game.Simulation.EndGameStats` | sketch.js:527-583 | The reward built up by the stats screen's subtractions and its loop over the archive equals `Scoring.Score`. On a loss, `remaining` is the rounded-up distance to the goal centre (550, 100). |

## Left out

- Rendering and UI are not modelled. These are the scene, fog and reflection images, the fog circle cleared in `drill` (sketch.js:411-414), `drawSurfacePipe`, the drawing half of `draw`, the `text` calls of the stats screen, `updateStartButtonText`, `padNumber` and `console.log`. None of them feeds back into the state.
- Steering is an input. The heading rotation by `angle * bias` and the random perturbation (sketch.js:395-400) are floating-point trigonometry and `Math.random`. `Drill` and `Tick` take the resulting heading as an input, so the model does not relate the new heading to `bias`.
- Game.Simulation.Drill: the new heading is not tied to `bias` or the steering angle, because the rotation is left out as described above.
- Ledger.ResumeAfterPullBackSideTracks: it is stated for a path meeting its step condition, not proved for every reachable game state, because step lengths come from the left-out steering.
- The start heading `fromAngle(0.2967)` is a trigonometric value. It is a constructor parameter kept in the constant `startHeading`.
- Numbers are exact. Positions and headings are exact reals, so floating-point rounding in `pos.add` and `dist` is not modelled. The side-track test `dist < 1.5` is decided exactly, on squared distances.
- The pixel lookup `hddScene.get` (sketch.js:422) is a caller-supplied function from a position to an RGBA value. Off-canvas sampling is therefore whatever that function says.
- Game.Simulation.EndGameStats: `Math.ceil(dist(...))` of the remaining distance is supplied by the caller. The precondition only characterises it: the least natural whose square reaches the squared distance.
- The reflection model (`drawReflection`, `computeReflextionTimeSinglePoint`, sketch.js:450-501) is left out. It is trigonometric geometry that only draws hints.
- New-game plumbing is left out: the re-seeding on a new game (sketch.js:127-129), the URL seed, the DOM slider and asset loading in `setup`, and the boulder list and scene regeneration in `startDrill` (sketch.js:280, 290-292). They are randomness and I/O. Only the canvas size (600×400) is taken from `setup`.
- `turnCircleRadius` (sketch.js:286-287) is a floating-point display value.
- Input dispatch is left out. `touchStarted` and `keyPressed` (sketch.js:150-176) only map events to the three actions, which are modelled directly.
