/**
 * The simulation state and its systems. The entities and resources the
 * source keeps in the engine's world become the fields of one `World`:
 * the paddles in query order, the single live ball, `LastOwner`, `Score`,
 * the two goals, the two score labels and a log of requested sound cues.
 * Each method is one system of the source, written as the source writes it
 * (loops over the paddles, goals and labels, `break` on the first hit) and
 * proved against the step functions of `Players`, `Balls` and `Scoring`.
 */
module Game {
  import opened Arena
  import opened Audio
  import opened Players
  import opened Balls
  import opened Scoring

  /** One paddle per player, at its side, at the configured speed, inside the arena. */
  ghost predicate PaddlesValid(paddles: seq<Paddle>) {
    && |paddles| == 2
    && paddles[0].playerType != paddles[1].playerType
    && forall i :: 0 <= i < |paddles| ==>
         && paddles[i].speed == PLAYER_SPEED
         && paddles[i].translation.x == (if paddles[i].playerType == PlayerType.Player1 then -300.0 else 300.0)
         && PADDLE_MIN_Y <= paddles[i].translation.y <= PADDLE_MAX_Y
  }

  /** One label per player, in `setup_ui` order, each showing its player's counter. */
  ghost predicate LabelsValid(labels: seq<ScoreLabel>, score: Score) {
    && |labels| == 2
    && labels[0].player == PlayerType.Player1 && labels[1].player == PlayerType.Player2
    && LabelsShow(labels, score)
  }

  class World {
    var paddles: seq<Paddle>
    var ball: Ball
    var lastOwner: PlayerType
    var score: Score
    const goals: seq<Goal>
    var labels: seq<ScoreLabel>
    var sounds: seq<Sound>

    /**
     * One paddle per player, each at its side, at the configured speed and
     * inside the arena; the ball belongs to `LastOwner`; the goals are the
     * spawned ones; one label per player, showing that player's counter.
     */
    ghost predicate Valid()
      reads this
    {
      && PaddlesValid(paddles)
      && ball.owner == lastOwner
      && goals == SpawnGoals()
      && LabelsValid(labels, score)
    }

    /** The index of the paddle a docked ball is served from. */
    function ServerIndex(): (k: nat)
      reads this
      requires Valid()
      ensures k < |paddles| && paddles[k].playerType == lastOwner
      ensures forall j :: 0 <= j < |paddles| && j != k ==> paddles[j].playerType != lastOwner
    {
      if paddles[0].playerType == lastOwner then 0 else 1
    }

    /**
     * Startup: `spawn_players`, `spawn_goals`, `setup_ui`, the default
     * `Score`, `LastOwner = Player1`, then the startup `spawn_ball`.
     */
    constructor ()
      ensures Valid()
      ensures paddles == SpawnPlayers() && score == DEFAULT_SCORE && labels == InitialLabels()
      ensures (ball, lastOwner) == Balls.SpawnBall(INITIAL_LAST_OWNER)
      ensures lastOwner == PlayerType.Player2 && !ball.fired
      ensures sounds == []
    {
      paddles := SpawnPlayers();
      goals := SpawnGoals();
      score := DEFAULT_SCORE;
      labels := InitialLabels();
      sounds := [];
      var spawned := Balls.SpawnBall(INITIAL_LAST_OWNER);
      ball, lastOwner := spawned.0, spawned.1;
      new;
      InitialLabelsShowDefaultScore();
    }

    /**
     * `player_movement`: for each paddle, launch the ball if Space is held,
     * then move the paddle by its keys, clamp it, and record its velocity.
     * Nothing but the paddles' y and velocity and the ball's flag changes.
     */
    method PlayerMovement(keys: Keys, dt: real)
      requires Valid() && dt > 0.0
      modifies this
      ensures Valid()
      ensures |paddles| == |old(paddles)|
      ensures forall i :: 0 <= i < |paddles| ==> paddles[i] == MovePaddle(old(paddles[i]), keys, dt)
      ensures ball == if keys.space then FireBall(old(ball)) else old(ball)
      ensures lastOwner == old(lastOwner) && score == old(score)
      ensures labels == old(labels) && sounds == old(sounds)
    {
      var i := 0;
      while i < |paddles|
        invariant 0 <= i <= |paddles| == |old(paddles)|
        invariant forall j :: 0 <= j < i ==> paddles[j] == MovePaddle(old(paddles[j]), keys, dt)
        invariant forall j :: i <= j < |paddles| ==> paddles[j] == old(paddles[j])
        invariant ball == if keys.space && i > 0 then FireBall(old(ball)) else old(ball)
        invariant lastOwner == old(lastOwner) && score == old(score)
        invariant labels == old(labels) && sounds == old(sounds)
      {
        var paddle := paddles[i];
        var yDelta := 0.0;
        if keys.space {
          ball := FireBall(ball);
        }
        if UpHeld(paddle.playerType, keys) {
          yDelta := yDelta + paddle.speed * dt;
        }
        if DownHeld(paddle.playerType, keys) {
          yDelta := yDelta - paddle.speed * dt;
        }
        var newY := paddle.translation.y + yDelta;
        paddle := paddle.(translation := paddle.translation.(y := Clamp(newY, PADDLE_MIN_Y, PADDLE_MAX_Y)));
        paddle := paddle.(yVelocity := yDelta / dt);
        assert paddle == MovePaddle(old(paddles[i]), keys, dt);
        paddles := paddles[i := paddle];
        i := i + 1;
      }
    }

    /**
     * `move_ball`: a docked ball snaps to its server's paddle; a fired ball
     * moves by its velocity, is reflected by the walls, and bounces off the
     * first paddle it overlaps. Only the ball and the sound log change.
     */
    method MoveBall(dt: real)
      requires Valid()
      modifies this
      ensures Valid()
      ensures ball == MoveBallStep(old(ball), paddles, lastOwner, dt)
      ensures sounds == old(sounds) + MoveBallSounds(old(ball), paddles, dt)
      ensures !old(ball).fired ==>
                ball == old(ball).(translation := Vec3(
                  paddles[ServerIndex()].translation.x + ServeOffset(lastOwner).x,
                  paddles[ServerIndex()].translation.y + ServeOffset(lastOwner).y,
                  old(ball).translation.z))
      ensures old(ball).fired ==> ball.fired && BALL_MIN_Y <= ball.translation.y <= BALL_MAX_Y
      ensures paddles == old(paddles) && lastOwner == old(lastOwner)
      ensures score == old(score) && labels == old(labels)
    {
      if !ball.fired {
        DockBall();
        DockedStepFollowsServer(old(ball), paddles, lastOwner, dt, ServerIndex());
        return;
      }
      FlyBall(dt);
    }

    /** The docked branch of `move_ball`: copy the serving paddle's position, offset. */
    method DockBall()
      requires Valid() && !ball.fired
      modifies this
      ensures Valid()
      ensures ball == old(ball).(translation := Dock(old(ball).translation, paddles, lastOwner))
      ensures paddles == old(paddles) && lastOwner == old(lastOwner) && score == old(score)
      ensures labels == old(labels) && sounds == old(sounds)
    {
      var i := 0;
      while i < |paddles|
        invariant 0 <= i <= |paddles|
        invariant ball == old(ball).(translation := Dock(old(ball).translation, paddles[..i], lastOwner))
        invariant paddles == old(paddles) && lastOwner == old(lastOwner) && score == old(score)
        invariant labels == old(labels) && sounds == old(sounds)
      {
        var paddle := paddles[i];
        match lastOwner {
          case Player1 =>
            if paddle.playerType == PlayerType.Player1 {
              ball := ball.(translation := ball.translation.(x := paddle.translation.x + 10.0));
              ball := ball.(translation := ball.translation.(y := paddle.translation.y + 2.0));
            }
          case Player2 =>
            if paddle.playerType == PlayerType.Player2 {
              ball := ball.(translation := ball.translation.(x := paddle.translation.x - 10.0));
              ball := ball.(translation := ball.translation.(y := paddle.translation.y - 2.0));
            }
        }
        assert paddles[..i + 1][..i] == paddles[..i];
        i := i + 1;
      }
      assert paddles[..i] == paddles;
    }

    /**
     * The in-flight branch of `move_ball`: integrate, check the walls, then
     * bounce off the first overlapping paddle.
     */
    method FlyBall(dt: real)
      requires Valid() && ball.fired
      modifies this
      ensures Valid()
      ensures ball == FlightStep(old(ball), paddles, dt)
      ensures sounds == old(sounds) + MoveBallSounds(old(ball), paddles, dt)
      ensures paddles == old(paddles) && lastOwner == old(lastOwner) && score == old(score)
      ensures labels == old(labels)
    {
      ball := ball.(translation := ball.translation.Plus(ball.velocity.Times(dt)));
      ReflectBallOffWalls();
      BounceOffFirstPaddle();
    }

    /** The wall check of `move_ball`: put the ball back on a wall it passed, reversing vy. */
    method ReflectBallOffWalls()
      requires Valid()
      modifies this
      ensures Valid()
      ensures ball == ReflectOffWalls(old(ball))
      ensures sounds == old(sounds) + if PastWall(old(ball)) then [Hit] else []
      ensures paddles == old(paddles) && lastOwner == old(lastOwner) && score == old(score)
      ensures labels == old(labels)
    {
      if ball.translation.y > BALL_MAX_Y {
        sounds := sounds + [Hit];
        ball := ball.(translation := ball.translation.(y := BALL_MAX_Y));
        ball := ball.(velocity := ball.velocity.(y := -ball.velocity.y));
      } else if ball.translation.y < BALL_MIN_Y {
        sounds := sounds + [Hit];
        ball := ball.(translation := ball.translation.(y := BALL_MIN_Y));
        ball := ball.(velocity := ball.velocity.(y := -ball.velocity.y));
      }
    }

    /**
     * The paddle loop of `move_ball`: the first paddle the ball overlaps
     * reflects it, pushes it away and nudges it; the loop then stops.
     */
    method BounceOffFirstPaddle()
      requires Valid()
      modifies this
      ensures Valid()
      ensures ball == match FirstPaddleHit(old(ball).translation, paddles)
                      case None => old(ball)
                      case Some(k) => PaddleBounce(old(ball), paddles[k])
      ensures sounds == old(sounds) + if FirstPaddleHit(old(ball).translation, paddles).Some? then [Bounce] else []
      ensures paddles == old(paddles) && lastOwner == old(lastOwner) && score == old(score)
      ensures labels == old(labels)
    {
      var i := 0;
      while i < |paddles|
        invariant 0 <= i <= |paddles|
        invariant ball == old(ball) && sounds == old(sounds)
        invariant paddles == old(paddles) && lastOwner == old(lastOwner) && score == old(score)
        invariant labels == old(labels)
        invariant forall j :: 0 <= j < i ==> !CheckPaddleCollision(ball.translation, paddles[j].translation)
      {
        var paddle := paddles[i];
        if CheckPaddleCollision(ball.translation, paddle.translation) {
          ball := ball.(velocity := ball.velocity.(x := -ball.velocity.x));
          match paddle.playerType {
            case Player1 =>
              ball := ball.(velocity := ball.velocity.Plus(Vec3(SPEED_INCREMENT, 0.0, 0.0)));
              ball := BounceBall(ball, paddle);
              sounds := sounds + [Bounce];
            case Player2 =>
              ball := ball.(velocity := ball.velocity.Minus(Vec3(SPEED_INCREMENT, 0.0, 0.0)));
              ball := BounceBall(ball, paddle);
              sounds := sounds + [Bounce];
          }
          assert FirstPaddleHit(old(ball).translation, paddles) == Some(i);
          break;
        }
        i := i + 1;
      }
    }

    /**
     * `spawn_ball`: replace the ball with a new docked one for the opposite
     * of `LastOwner`, and flip `LastOwner`.
     */
    method SpawnBall()
      requires Valid()
      modifies this
      ensures Valid()
      ensures (ball, lastOwner) == Balls.SpawnBall(old(lastOwner))
      ensures lastOwner == Opponent(old(lastOwner)) && ball.owner == lastOwner && !ball.fired
      ensures paddles == old(paddles) && score == old(score)
      ensures labels == old(labels) && sounds == old(sounds)
    {
      match lastOwner {
        case Player1 =>
          ball := Ball(Vec3(INITIAL_BALL_SPEED, 0.0, 0.0), false, PlayerType.Player2, Vec3(-1000.0, -1000.0, 0.0));
          lastOwner := PlayerType.Player2;
        case Player2 =>
          ball := Ball(Vec3(INITIAL_BALL_SPEED, 0.0, 0.0), false, PlayerType.Player1, Vec3(-1000.0, -1000.0, 0.0));
          lastOwner := PlayerType.Player1;
      }
    }

    /**
     * `update_player_score`: add one point to the scorer's counter, then
     * rewrite every label with its player's counter, two-digit padded.
     */
    method UpdatePlayerScore(scoringPlayer: GoalFor)
      requires Valid()
      modifies this
      ensures Valid()
      ensures score == AddPoint(old(score), scoringPlayer)
      ensures Counter(score, AsPlayerType(scoringPlayer)) == Counter(old(score), AsPlayerType(scoringPlayer)) + 1
      ensures Counter(score, Opponent(AsPlayerType(scoringPlayer))) == Counter(old(score), Opponent(AsPlayerType(scoringPlayer)))
      ensures |labels| == |old(labels)|
      ensures forall i :: 0 <= i < |labels| ==>
                labels[i] == old(labels[i]).(text := FormatScore(Counter(score, labels[i].player)))
      ensures paddles == old(paddles) && ball == old(ball) && lastOwner == old(lastOwner)
      ensures sounds == old(sounds)
    {
      match scoringPlayer {
        case Player1 =>
          score := score.(player1Score := score.player1Score + 1);
        case Player2 =>
          score := score.(player2Score := score.player2Score + 1);
      }
      RefreshLabels();
    }

    /** The text loop of `update_player_score`: each label shows its player's counter. */
    method RefreshLabels()
      requires PaddlesValid(paddles) && ball.owner == lastOwner && goals == SpawnGoals()
      requires |labels| == 2 && labels[0].player == PlayerType.Player1 && labels[1].player == PlayerType.Player2
      modifies this
      ensures Valid()
      ensures |labels| == |old(labels)|
      ensures forall i :: 0 <= i < |labels| ==>
                labels[i] == old(labels[i]).(text := FormatScore(Counter(score, labels[i].player)))
      ensures paddles == old(paddles) && ball == old(ball) && lastOwner == old(lastOwner)
      ensures score == old(score) && sounds == old(sounds)
    {
      var i := 0;
      while i < |labels|
        invariant 0 <= i <= |labels| == |old(labels)|
        invariant forall j :: 0 <= j < i ==>
                    labels[j] == old(labels[j]).(text := FormatScore(Counter(score, labels[j].player)))
        invariant forall j :: i <= j < |labels| ==> labels[j] == old(labels[j])
        invariant paddles == old(paddles) && ball == old(ball) && lastOwner == old(lastOwner)
        invariant score == old(score) && sounds == old(sounds)
      {
        var shown := labels[i];
        match shown.player {
          case Player1 =>
            shown := shown.(text := FormatScore(score.player1Score));
          case Player2 =>
            shown := shown.(text := FormatScore(score.player2Score));
        }
        labels := labels[i := shown];
        i := i + 1;
      }
    }

    /**
     * `check_goal_collision`: find the first goal the ball overlaps; if there
     * is one, credit the other player, request the win cue, and replace the
     * ball by a freshly spawned one. With no overlap nothing changes.
     */
    method CheckGoalCollision()
      requires Valid()
      modifies this
      ensures Valid()
      ensures paddles == old(paddles)
      ensures match FirstGoalHit(old(ball).translation, goals)
              case None =>
                && ball == old(ball) && lastOwner == old(lastOwner) && score == old(score)
                && labels == old(labels) && sounds == old(sounds)
              case Some(k) =>
                && score == AddPoint(old(score), ScoringPlayer(goals[k].goalFor))
                && (ball, lastOwner) == Balls.SpawnBall(old(lastOwner))
                && sounds == old(sounds) + [Win]
      ensures score == ScoreAfterCheck(old(score), old(ball).translation)
    {
      var ballToDespawn := false;
      var i := 0;
      while i < |goals|
        invariant 0 <= i <= |goals|
        invariant !ballToDespawn
        invariant forall j :: 0 <= j < i ==> !CheckCollision(old(ball).translation, goals[j].translation)
        invariant ball == old(ball) && lastOwner == old(lastOwner) && score == old(score)
        invariant labels == old(labels) && sounds == old(sounds) && paddles == old(paddles)
        invariant Valid()
      {
        if CheckCollision(ball.translation, goals[i].translation) {
          var scoringPlayer := ScoringPlayer(goals[i].goalFor);
          assert FirstGoalHit(old(ball).translation, goals) == Some(i);
          UpdatePlayerScore(scoringPlayer);
          sounds := sounds + [Win];
          ballToDespawn := true;
          break;
        }
        i := i + 1;
      }

      if ballToDespawn {
        SpawnBall();
      }
    }
  }
}
