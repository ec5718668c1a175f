# Cat volleyball: the per-frame gameplay rules

This project models the gameplay core of a two-player volleyball game built on the Amethyst
entity-component engine. It covers:

- the game's data (`CatVolleyball`): the arena, ball and paddle constants, the `Ball`, `Side`,
  `Player` and `ScoreBoard` types, and the state `on_start` creates;
- the motion system (`MoveBalls`): one constant-gravity Euler step per ball per frame;
- the collision system (`Bounce`): an `else if` chain over the four arena walls, then every
  paddle's widened hit rectangle, with a random horizontal deflection of a falling ball;
- the scoring system (`Winner`): a ball on the ground scores for the side opposite the half it
  landed in, the score saturates at 999, and the ball is served again from the middle.

The engine's world is a `World` object. Its fields are the storages the systems join over:
- the ball entities, each one a `Ball` component paired with its translation;
- the player entities;
- the `ScoreBoard` resource;
- the sounds triggered so far, as a list of events.

Each system is a `Run` method with the source's loop over the storage. Its postcondition ties the
new world to pure functions of the old one, and lemmas prove the game's rules about those
functions. Random draws are parameters whose ranges are preconditions. The collision system takes
one deflection factor per ball and paddle. The scoring system takes one serve factor per ball.
The frame time is a parameter of the motion system.

## Model

| member | source | states |
|---|---|---|
| CatVolleyball.NewPlayer | src/catvolleyball.rs:79-85 | keeps the side; the paddle is 32 wide and 32 high |
| CatVolleyball.InitializeBall | src/catvolleyball.rs:39-59 | the ball starts at (250, 250) with velocity (60, -50) and radius 16, more than a radius away from every wall on both axes |
| CatVolleyball.InitializePlayers | src/catvolleyball.rs:93-124 | exactly two players, one per side, left first; both at y = 16; x = 16 and x = 484, mirrored about the middle line |
| CatVolleyball.DefaultScoreBoard | src/catvolleyball.rs:171-175 | both scores start at 0 |
| CatVolleyball.World.OnStart | src/catvolleyball.rs:238-250 | the world after `on_start`: one initial ball, the two initial players, a fresh scoreboard, no sounds |
| MoveBalls.Integrate | src/systems/move_ball.rs:22-33 | x advances by vx·dt and vx is kept; vy' = vy - 5·dt; the y step is the mean of old and new vy times dt; dt = 0 changes nothing; dt >= 0 never raises vy; the radius is kept |
| MoveBalls.IntegrateComposes | src/systems/move_ball.rs:24-31 | two frames of a and b seconds equal one frame of a + b seconds |
| MoveBalls.Run | src/systems/move_ball.rs:22-33 | every ball is integrated by dt, the storage keeps its length, and players, scores and sounds are untouched |
| Bounce.WallHit | src/systems/bounce.rs:44-56 | the wall the chain picks is touched with the velocity pointing at it; no wall fires when none is touched; every wall earlier in the order bottom, top, left, right is not touched |
| Bounce.WallBounce | src/systems/bounce.rs:44-55 | with no hit the velocity is kept; bottom/top negate vy and keep vx; left/right negate vx and keep vy; afterwards the ball no longer moves toward the wall it hit |
| Bounce.PointInRect | src/systems/bounce.rs:110-119 | inside exactly when left <= x <= right and y is at most both top and bottom, with no lower bound on y |
| Bounce.HitRect | src/systems/bounce.rs:60-75 | left = tx - w/2 - r, a width of 2r, top = right + w (an x-derived bound) and bottom = ty + h |
| Bounce.ConfiguredPaddleHit | src/systems/bounce.rs:60-75 | for the configured paddle and ball sizes, a hit holds exactly when tx - 32 <= x <= tx, y <= tx + 32 and y <= ty + 32 |
| Bounce.Deflect | src/systems/bounce.rs:83-84 | with a factor in [0.6, 3) the new vx is <= 0 and its size is between 0.6 and 3 times the old one, strictly below 3 times unless vx was 0 |
| Bounce.PaddleBounce | src/systems/bounce.rs:69-101 | one bounce sound exactly when the ball is in the hit rectangle and falling; then vy is negated (now > 0) and vx is deflected, the same on either side; otherwise nothing changes |
| Bounce.PaddlePassNotFalling | src/systems/bounce.rs:59-79 | a ball that is not falling is left alone by every paddle |
| Bounce.PaddlePassAtMostOnce | src/systems/bounce.rs:59-103 | over all paddles, either no sound and the velocity is kept, or exactly one bounce: the ball was falling, now rises at the same speed, and moves toward negative x at 0.6 to 3 times its old horizontal speed |
| Bounce.PaddlePassNoHit | src/systems/bounce.rs:69-76 | a ball in no paddle's hit rectangle keeps its velocity and triggers no sound |
| Bounce.PaddlePassFirstHit | src/systems/bounce.rs:59-84 | a falling ball is bounced by the first paddle in storage order whose hit rectangle holds its centre: vy is negated, vx is deflected with that paddle's factor, and exactly one bounce sound plays |
| Bounce.BounceBall | src/systems/bounce.rs:40-104 | the system never writes a ball's position or radius |
| Bounce.BounceBallSounds | src/systems/bounce.rs:40-104 | at most two bounce sounds per ball, at most one with no wall hit; after a bottom-wall bounce no paddle bounces the ball |
| Bounce.BounceSoundsBound | src/systems/bounce.rs:40-104 | over the storage, only bounce sounds, at most two per ball |
| Bounce.MiddleMissesInitialPaddles | src/systems/bounce.rs:60-76 | neither paddle, where the game places it, reaches a ball on the middle line |
| Bounce.TopWallExample | src/systems/bounce.rs:47-49 | a ball at (250, 500) with velocity (60, 40) ends with velocity (60, -40) and one bounce sound |
| Bounce.InitialBallNoBounce | src/systems/bounce.rs:40-104 | the ball as created, before any motion step, bounces off no wall and no paddle and triggers no sound |
| Bounce.Run | src/systems/bounce.rs:31-105 | every ball gets its own wall chain and paddle loop, the sounds are appended in storage order, and players, scores, positions and radii are untouched |
| Bounce.BounceBallAt | src/systems/bounce.rs:40-104 | one iteration of the loop over the balls: only ball i changes, to the specified bounce, and its sounds are appended |
| Bounce.BounceOffWalls | src/systems/bounce.rs:44-56 | the wall chain as written yields the specified wall bounce and its sound |
| Bounce.BounceOffPlayers | src/systems/bounce.rs:59-103 | the loop over the players as written yields the specified paddle pass and its sounds |
| Winner.Increment | src/systems/winner.rs:42-49 | below 999 a score rises by one; at 999 or above it becomes 999 |
| Winner.ScoringSide | src/systems/winner.rs:41-54 | the right player scores exactly when the ball lands at x <= 250, the left one otherwise |
| Winner.AwardPoint | src/systems/winner.rs:41-54 | only the scoring side's score changes, by the saturating increment, and scores in [0, 999] stay there |
| Winner.Served | src/systems/winner.rs:39-61 | a ball above the ground is unchanged; a ball on the ground is put at (250, 250) with vx scaled by r, vy = -50 and its radius kept, whatever its state before |
| Winner.WinnerBall | src/systems/winner.rs:39-62 | no ground touch: no score change and no sound; a ground touch: one point for the side opposite the landing half and exactly one score sound |
| Winner.ServeSpeedBound | src/systems/winner.rs:60 | with r in [-1, 1) the serve never raises the horizontal speed, and vx = 0 stays 0 |
| Winner.ScoresAtMostOnceInARow | src/systems/winner.rs:39-58 | the serve height exceeds the radius, so a second turn right after a point changes nothing and at most one score sound is triggered over the two |
| Winner.LeftHalfLandingExample | src/systems/winner.rs:39-61 | a ball landing at (100, 16) gives the right player a point, is re-centred with vy = -50 and abs(vx) <= 30, and triggers one score sound |
| Winner.ScoreAfterIsSaturated | src/systems/winner.rs:42-49 | n points from 0 give min(n, 999), so a score stays in [0, 999] |
| Winner.SaturationExample | src/systems/winner.rs:42-49 | 999 points give 999, and a thousandth leaves it at 999 |
| Winner.WinnerPassEffect | src/systems/winner.rs:36-63 | over the storage: one score sound per ball on the ground, scores stay in range, never go down, and rise in total by at most one per sound |
| Winner.InitialBallNoScore | src/systems/winner.rs:39 | the ball as created, before any motion step, does not score: ball, fresh scoreboard and sounds are unchanged |
| Winner.Run | src/systems/winner.rs:32-64 | every ball is served or left as it is, scores and sounds follow the balls in storage order, and the players are untouched |
| Winner.WinnerBallAt | src/systems/winner.rs:37-62 | one iteration of the loop over the balls: only ball i, the scores and the sounds change, as specified |

## Left out

- `src/main.rs` is not part of this model: the logger, paths, bundles, rendering and window setup.
  Its dispatcher makes the winner system depend only on the motion system, not on the collision
  system. The order of bounce and scoring within a frame is therefore not fixed, and each system
  is modelled on its own with no frame composition.
- `PlayerSystem` (input-driven paddle movement) is not part of this model; the paddles keep the
  positions the world holds.
- The UI score text update: presentation only.
- Sprite sheets, textures, fonts, the camera and UI transforms: asset loading and rendering.
- Audio playback: `play_bounce_sound` and `play_score_sound` become events appended to `sounds`.
  `initialise_audio` is part of the audio module, which is not part of this model.
- `rand::thread_rng`: every draw is a parameter within the range given to `gen_range`. The model
  takes one draw per ball and paddle in the collision system, even where the source draws none
  because no bounce happens, and one serve factor per ball in the scoring system, even for balls
  that do not touch the ground, where the source draws none.
- `f32` rounding: positions, velocities and the frame time are reals.
- The `i32` fields of `ScoreBoard` are unbounded integers. `score + 1` cannot overflow, because
  the scores start at 0 and never pass 999.
- The transform's z coordinate and parent hierarchy: `prepend_translation_x/y` is modelled as
  adding to the translation.
- These behaviours follow the code as written:
  - the wall checks are an `else if` chain, so at most one wall fires per ball per call;
  - the paddle rectangle's `right` is `px + r` and its `top` is `px + w + r`, exactly as passed
    at src/systems/bounce.rs:72-75. The comment at src/systems/bounce.rs:63-67 describes adding
    the radius to the paddle's highest coordinates, which those arguments do not do: the right
    bound omits the paddle's width, the top bound is derived from x rather than y, and the y bound
    `py` gets no radius added.
