# Pong gameplay core in Dafny

This project models the gameplay core of a small Pong clone written in Rust on
the Bevy engine: two paddles, one ball, the `LastOwner` serve flag and the
two-counter `Score`. Each frame runs three systems:

- `player_movement` moves each paddle by its keys, clamps it to the arena,
  records its velocity and launches the ball when Space is held;
- `move_ball` keeps an unlaunched ball docked at the serving paddle, or moves
  a launched ball, reflects it off the top and bottom walls, and bounces it off
  the first paddle it overlaps;
- `check_goal_collision` credits a goal to the opponent of the goal's owner,
  rewrites the score labels and replaces the ball with a freshly spawned one,
  flipping `LastOwner`.

The model has one module per source file:

- `Arena` holds the arena constants, `Vec3` and `f32::clamp`.
- `Audio` holds the sound cues, as tags.
- `Players` models `src/player.rs`.
- `Balls` models `src/ball.rs`.
- `Scoring` models `src/score.rs`.

`Game.World` is the simulation state. Its fields are the paddles in query
order, the single ball, `LastOwner`, `Score`, the goals, the score labels and
a log of requested sounds. It has one method per system. Each method keeps the
loops and early `break`s of the source. Each method is proved against a pure
step function: `MovePaddle`, `MoveBallStep`, `SpawnBall`, `AddPoint` or
`FormatScore`. The lemmas state the game's properties about those functions.
`World.Valid()` is the invariant every system keeps. It says:

- there is one paddle per player, at x = ∓300, at speed 300, with y in [-270, 270];
- the ball's owner equals `LastOwner`;
- the goals are at x = ∓600;
- each label shows its player's counter, formatted.

The ECS wiring becomes plain data. Positions and velocities are `real`. Keys
are booleans passed in. Sound effects are tags appended to a log.

Some behaviours of the code are easy to miss:

- The paddle velocity `y_delta / dt` is not guarded against `dt == 0`
  (src/player.rs:173). The model requires `dt > 0` there.
- `LastOwner` starts at Player1, and the startup spawn flips it. So the first
  ball is served from Player2's paddle (`StartupServesFromPlayer2`).
- A bounce makes the horizontal speed exactly 50 larger only when the ball was
  moving toward that paddle. A ball moving away faster than 50 leaves slower
  (`PaddleBounceSpeed`).
- The overlap tests are strict. A docked ball, at 10 from its paddle's centre,
  only touches the paddle. A ball at x = 290 does not bounce off the paddle at
  x = 300; at x = 291 it does (`ReturnScenario`).
- Every ball starts with velocity (+200, 0, 0). So a ball served from
  Player2's paddle bounces off that same paddle on its first short frame in
  flight, and leaves at -250 (`Player2ServeBouncesOffOwnPaddle`).

## Model

| member | source | states |
|---|---|---|
| Arena.Clamp | src/player.rs:168-171 | the result lies in [lo, hi]; it is the input when the input is inside, lo below, hi above |
| Arena.ClampIsNearest | src/player.rs:168-171 | the clamped value is the point of [lo, hi] nearest to the input |
| Players.SpawnPlayersAtRest | src/player.rs:34-67 | two paddles, Player1 at (-300, 0) and Player2 at (300, 0), speed 300, y_velocity 0, inside the bounds |
| Players.YDelta | src/player.rs:138-163 | +speed·dt with only the up key, -speed·dt with only the down key, 0 with neither or both |
| Players.YDeltaIgnoresOtherKeys | src/player.rs:146-163 | Player1 reads only W/S and Player2 only Up/Down |
| Players.MovePaddle | src/player.rs:164-173 | new y is old y + delta clamped to [-270, 270]: exactly old y + delta when that is in range, the bound it overshot otherwise; velocity = delta / dt; x, z, speed and player type unchanged |
| Players.MovePaddleVelocity | src/player.rs:173 | the velocity is +speed, -speed or 0 according to the keys |
| Players.PinnedPaddleStillReportsVelocity | src/player.rs:165-173 | a paddle at the top bound with up held stays put yet reports velocity +speed |
| Game.World.PlayerMovement | src/player.rs:131-175 | every paddle becomes MovePaddle of its old state; the ball is launched iff Space is held, and is otherwise unchanged; nothing else changes; Valid is kept |
| Balls.FireBall | src/ball.rs:118-120 | the ball is launched; velocity, owner and position unchanged |
| Balls.FireBallIdempotent | src/ball.rs:118-120 | launching twice equals launching once; a launched ball is left as is |
| Balls.BounceBall | src/ball.rs:122-132 | only velocity.y changes: +speed/2 for a paddle moving up, -speed/2 moving down, nothing at rest |
| Balls.CheckPaddleCollision | src/ball.rs:135-147 | holds iff abs(dx) < 10 and abs(dy) < 35, strictly |
| Balls.Dock | src/ball.rs:49-72 | the ball keeps its depth and ends at the last serving paddle in iteration order plus the serve offset |
| Balls.DockWithoutServer | src/ball.rs:48-75 | with no paddle of LastOwner's side the docked loop leaves the ball in place |
| Balls.DockAtServer | src/ball.rs:48-75 | with one paddle of LastOwner's side the docked loop puts the ball at that paddle plus (+10, +2) for Player1 or (-10, -2) for Player2, keeping z |
| Balls.DockedStepFollowsServer | src/ball.rs:48-75 | an unlaunched ball only moves to its server's paddle plus the offset; velocity, flag and owner unchanged; no sound |
| Balls.DockedBallOnlyTouchesServer | src/ball.rs:135-147 | a docked ball does not overlap its own paddle |
| Balls.ReflectOffWalls | src/ball.rs:79-88 | y ends in [-295, 295], on the wall it passed; velocity.y is negated iff a wall was passed, once; nothing else changes |
| Balls.FlightStep | src/ball.rs:77-115 | x and z move by exactly velocity times dt; y ends in [-295, 295]; launch flag and owner kept |
| Balls.FirstPaddleHit | src/ball.rs:90-115 | the index of the first overlapping paddle in iteration order, or none when no paddle overlaps |
| Balls.PaddleBounce | src/ball.rs:91-112 | new vx = -vx + 50 on Player1's paddle and -vx - 50 on Player2's; vy as bounce_ball gives; position unchanged |
| Balls.PaddleBounceSpeed | src/ball.rs:92-106 | moving toward the paddle, abs(vx) grows by exactly 50; moving away faster than 50, it shrinks by 50 |
| Balls.MoveBallStep | src/ball.rs:39-116 | launch flag and owner are never changed; an unlaunched ball keeps its velocity |
| Balls.MoveBallSounds | src/ball.rs:79-112 | no cue for a docked ball; Hit iff a wall was passed, Bounce iff a paddle was hit, in that order, never Win |
| Balls.FlightStaysBetweenWalls | src/ball.rs:77-88 | after an in-flight step the ball's y lies in [-295, 295] |
| Balls.FlightBouncesAtMostOnce | src/ball.rs:90-115 | at most one paddle bounce per step, the first overlapping paddle's; one Bounce cue then; a Hit cue iff a wall was passed |
| Balls.FlightVerticalVelocity | src/ball.rs:77-115 | vy after a step is the wall-reflected vy plus the paddle nudge of the paddle hit, if any |
| Balls.Player2ServeBouncesOffOwnPaddle | src/ball.rs:48-115 | a Player2 serve launched for a frame under 0.1 s overlaps Player2's paddle and leaves at vx = -250 |
| Balls.Player1ServeLeavesOwnPaddle | src/ball.rs:48-115 | a Player1 serve launched leaves its paddle at (200, 0, 0), at x = -290 + 200·dt |
| Balls.ServeScenario | src/ball.rs:48-88 | docked at (-290, 2) beside Player1's resting paddle; one second after launch at (-90, 2) with velocity (200, 0, 0) |
| Balls.ReturnScenario | src/ball.rs:90-115 | the paddle loop for a ball standing still (a zero-length frame): at x = 291 against Player2's resting paddle the ball leaves at (-250, 0, 0); at x = 290 it only touches and keeps (200, 0, 0) |
| Game.World.MoveBall | src/ball.rs:39-116 | the ball becomes MoveBallStep of the old ball, the sounds MoveBallSounds; a docked ball sits at its server's paddle plus the offset; a launched one stays launched and between the walls; Valid is kept |
| Game.World.DockBall | src/ball.rs:48-75 | the docked loop computes Dock over the paddles |
| Game.World.FlyBall | src/ball.rs:77-115 | the in-flight branch computes FlightStep |
| Game.World.ReflectBallOffWalls | src/ball.rs:79-88 | the wall check computes ReflectOffWalls and logs one Hit iff a wall was passed |
| Game.World.BounceOffFirstPaddle | src/ball.rs:90-115 | the paddle loop applies PaddleBounce for the first overlapping paddle only, and logs one Bounce then |
| Balls.SpawnBall | src/ball.rs:149-197 | an unlaunched ball at (-1000, -1000) with velocity (200, 0, 0) for either owner; owner and new LastOwner are both the opposite of the old LastOwner |
| Balls.SpawnTwiceRestoresOwner | src/ball.rs:149-197 | two spawns give LastOwner back its value |
| Balls.SpawnOwnersAlternate | src/ball.rs:149-197 | n spawns serve the opposite side, then the original, alternating; LastOwner after n spawns depends on n's parity |
| Balls.StartupServesFromPlayer2 | src/ball.rs:30-37 | from LastOwner = Player1 the startup spawn serves Player2 and leaves LastOwner = Player2 |
| Game.World.SpawnBall | src/ball.rs:149-197 | the ball and LastOwner become those of SpawnBall; LastOwner flips and equals the new ball's owner |
| Game.World.constructor | src/ball.rs:30-37 | startup: the spawned paddles, the goals, Score (0, 0), labels "00", then one spawn from LastOwner = Player1; Valid holds |
| Scoring.GoalCentres | src/score.rs:84-128 | Player1's goal is centred at (-600, 0) and Player2's at (600, 0) |
| Scoring.CheckCollision | src/score.rs:174-186 | holds iff abs(dx) < 55 and abs(dy) < 305, strictly |
| Scoring.NoBallInBothGoals | src/score.rs:98-120 | no ball position overlaps both goals |
| Scoring.ScoringPlayer | src/score.rs:145-148 | the scorer is never the goal's owner |
| Scoring.AddPoint | src/score.rs:193-200 | the scorer's counter grows by one and the other is unchanged |
| Scoring.FirstGoalHit | src/score.rs:141-163 | the index of the first overlapping goal in iteration order, or none when no goal overlaps |
| Scoring.ScoreAfterCheck | src/score.rs:141-151 | no counter decreases, and the total grows by one exactly when the ball overlaps a goal |
| Scoring.GoalCreditsOpponent | src/score.rs:141-151 | a ball in Player1's goal credits player2_score, in Player2's goal player1_score; elsewhere the score is unchanged |
| Scoring.ScoreCountsGoals | src/score.rs:193-200 | from (0, 0) each counter is the number of goals entered into the opponent's zone; the total is the number of goals |
| Scoring.ScoreNeverDecreases | src/score.rs:193-200 | further goals never lower either counter |
| Balls.Fly | src/ball.rs:39-116 | over any run of frames the launch flag and the owner are kept |
| Balls.RunAlongBottomWall | src/ball.rs:77-115 | a ball at or below the bottom wall moving right at 200, short of Player1's paddle, ends the frame on the wall 200·dt further right, same velocity |
| Balls.EarlyLaunchRunsAlongBottomWall | src/ball.rs:159-162 | a ball launched at (-1000, -1000) before docking is, after frames of total time t ≤ 3 s, at (-1000 + 200·t, -295) |
| Scoring.LaunchBeforeDockingScoresForPlayer2 | src/ball.rs:159-162 | with a goal check after every frame of at most 0.5 s, a ball launched before docking scores nothing up to 1.725 s of flight, and the frame that passes 1.725 s credits Player2, whoever was to serve |
| Scoring.Decimal | src/score.rs:205-208 | at least one digit, all digits, no leading zero from 10 on |
| Scoring.FormatScore | src/score.rs:205-208 | at least two characters, all digits, exactly two below 100, no padding from 10 on |
| Scoring.DecimalRoundTrip | src/score.rs:205-208 | the decimal text reads back as the number |
| Scoring.FormatScoreRoundTrip | src/score.rs:205-208 | the padded score text reads back as the counter |
| Scoring.InitialLabelsShowDefaultScore | src/score.rs:60-81 | the initial "00" labels are the default score formatted |
| Game.World.UpdatePlayerScore | src/score.rs:188-212 | the score becomes AddPoint: one counter grows by one, the other is unchanged; every label is rewritten with its player's counter formatted; Valid is kept |
| Game.World.RefreshLabels | src/score.rs:202-211 | each label's text becomes its player's counter, formatted |
| Game.World.CheckGoalCollision | src/score.rs:129-172 | with no overlapping goal nothing changes; otherwise the first overlapping goal's opponent gains one point, one Win cue is logged and the ball and LastOwner become those of one SpawnBall |

## Left out

- Rendering is not modelled: sprites, score text layout and font, the camera and src/tilemap.rs. Only the positions the logic reads are kept.
- src/audio.rs is not modelled beyond the cue names. Loading and playing sounds is reduced to appending `Hit`, `Bounce` or `Win` to a log.
- src/ascii.rs is not part of this model. It is not declared as a module of the game.
- Bevy scheduling is not modelled. The systems are separate methods and no per-frame driver fixes their order, because the source does not order its Update systems either.
- `Query::single_mut` panics are not modelled: `World` holds exactly one ball. The outer loop over balls in `check_goal_collision` therefore runs once.
- Deferred `Commands` are not modelled: the despawn and the spawn replace the ball slot at once.
- Keyboard polling is not modelled. The held keys arrive as the booleans of `Keys`.
- `f32` rounding, NaN and infinity are not modelled. All arithmetic is on reals.
- Players.MovePaddle: requires `dt > 0`, because the source divides by `dt` unguarded and with reals the quotient is undefined at 0.
- Game.World.PlayerMovement: requires `dt > 0`, for the same reason; `Valid` also fixes two paddles, so the case of no paddles, where Space would launch nothing, is not represented.
- Score counters are `nat`: the `u32` overflow after 2^32 - 1 goals is not modelled.
- `BALL_START_POSITION_PLAYER_1` and `BALL_START_POSITION_PLAYER_2` are declared in src/ball.rs but never read, so they are not modelled.
- The ball's `owner` field is carried and kept equal to `LastOwner`. No system reads it.
