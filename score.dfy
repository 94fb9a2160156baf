/**
 * Goals and scoring (src/score.rs): the score counters, the two goal
 * zones, the goal overlap test, who scores on which goal, the counter update
 * and the `{:02}` score text. `Game.World.CheckGoalCollision` and
 * `Game.World.UpdatePlayerScore` are the systems that apply these.
 */
module Scoring {
  import opened Arena
  import opened Balls
  import Players

  const GOAL_WIDTH: real := 100.0

  /** The two counters; the source's `u32` is read as a `nat`. */
  datatype Score = Score(player1Score: nat, player2Score: nat)

  /** `Score::default()`. */
  const DEFAULT_SCORE: Score := Score(0, 0)

  /** Which player's goal a zone is: the player scored against in it. */
  datatype GoalFor = Player1 | Player2

  /** A goal entity: its `GoalFor` tag and its transform's translation. */
  datatype Goal = Goal(goalFor: GoalFor, translation: Vec3)

  /** The two goals `spawn_goals` creates, beyond the left and right edges. */
  function SpawnGoals(): seq<Goal> {
    [ Goal(Player1, Vec3(-ARENA_WIDTH / 2.0 - GOAL_WIDTH * 2.0, 0.0, 0.0)),
      Goal(Player2, Vec3(ARENA_WIDTH / 2.0 + GOAL_WIDTH * 2.0, 0.0, 0.0)) ]
  }

  lemma GoalCentres()
    ensures |SpawnGoals()| == 2
    ensures SpawnGoals()[0] == Goal(Player1, Vec3(-600.0, 0.0, 0.0))
    ensures SpawnGoals()[1] == Goal(Player2, Vec3(600.0, 0.0, 0.0))
  {
  }

  /**
   * `check_collision`: the ball's square and the goal's 100 by 600 box
   * overlap, strictly, on both axes.
   */
  function CheckCollision(ballPos: Vec3, goalPos: Vec3): (hit: bool)
    ensures hit <==> Abs(ballPos.x - goalPos.x) < 55.0 && Abs(ballPos.y - goalPos.y) < 305.0
  {
    && ballPos.x + BALL_SIZE / 2.0 > goalPos.x - 100.0 / 2.0
    && ballPos.x - BALL_SIZE / 2.0 < goalPos.x + 100.0 / 2.0
    && ballPos.y + BALL_SIZE / 2.0 > goalPos.y - ARENA_HEIGHT / 2.0
    && ballPos.y - BALL_SIZE / 2.0 < goalPos.y + ARENA_HEIGHT / 2.0
  }

  /** The two goal zones are far apart: no ball position overlaps both. */
  lemma NoBallInBothGoals(pos: Vec3)
    ensures !(CheckCollision(pos, SpawnGoals()[0].translation) && CheckCollision(pos, SpawnGoals()[1].translation))
  {
  }

  /**
   * A ball hitting one player's goal scores for the other player. This is
   * `Players.Opponent` over the goal tag rather than the paddle tag: the
   * game keeps the two as separate enums, and so does the model.
   */
  function ScoringPlayer(goalFor: GoalFor): (scorer: GoalFor)
    ensures scorer != goalFor
  {
    match goalFor
    case Player1 => Player2
    case Player2 => Player1
  }

  /** The paddle side a scoring tag stands for. */
  function AsPlayerType(g: GoalFor): Players.PlayerType {
    match g
    case Player1 => Players.Player1
    case Player2 => Players.Player2
  }

  /** The counter shown for a player. */
  function Counter(s: Score, p: Players.PlayerType): nat {
    match p
    case Player1 => s.player1Score
    case Player2 => s.player2Score
  }

  /** The counter update of `update_player_score`: one point for the scorer. */
  function AddPoint(s: Score, scorer: GoalFor): (r: Score)
    ensures Counter(r, AsPlayerType(scorer)) == Counter(s, AsPlayerType(scorer)) + 1
    ensures Counter(r, Players.Opponent(AsPlayerType(scorer))) == Counter(s, Players.Opponent(AsPlayerType(scorer)))
  {
    match scorer
    case Player1 => s.(player1Score := s.player1Score + 1)
    case Player2 => s.(player2Score := s.player2Score + 1)
  }

  /**
   * The index of the first goal, in iteration order, that the ball overlaps.
   * The same search as `Balls.FirstPaddleHit`, over goals and their own
   * overlap test, as the goal loop repeats the paddle loop in the game.
   */
  function FirstGoalHit(pos: Vec3, goals: seq<Goal>): (k: Option<nat>)
    ensures k.Some? ==> k.value < |goals| && CheckCollision(pos, goals[k.value].translation)
    ensures k.Some? ==> forall j :: 0 <= j < k.value ==> !CheckCollision(pos, goals[j].translation)
    ensures k.None? ==> forall j :: 0 <= j < |goals| ==> !CheckCollision(pos, goals[j].translation)
  {
    if goals == [] then None
    else if CheckCollision(pos, goals[0].translation) then Some(0)
    else match FirstGoalHit(pos, goals[1..])
         case None => None
         case Some(k) => Some(k + 1)
  }

  /**
   * The score after the ball at `pos` is checked against the spawned goals:
   * entering Player1's goal credits Player2 and the reverse; no goal, no change.
   */
  function ScoreAfterCheck(s: Score, pos: Vec3): (r: Score)
    ensures r.player1Score >= s.player1Score && r.player2Score >= s.player2Score
    ensures r.player1Score + r.player2Score ==
              s.player1Score + s.player2Score + if FirstGoalHit(pos, SpawnGoals()).Some? then 1 else 0
  {
    match FirstGoalHit(pos, SpawnGoals())
    case None => s
    case Some(k) => AddPoint(s, ScoringPlayer(SpawnGoals()[k].goalFor))
  }

  lemma GoalCreditsOpponent(s: Score, pos: Vec3)
    ensures CheckCollision(pos, Vec3(-600.0, 0.0, 0.0)) ==>
              ScoreAfterCheck(s, pos) == s.(player2Score := s.player2Score + 1)
    ensures CheckCollision(pos, Vec3(600.0, 0.0, 0.0)) ==>
              ScoreAfterCheck(s, pos) == s.(player1Score := s.player1Score + 1)
    ensures !CheckCollision(pos, Vec3(-600.0, 0.0, 0.0)) && !CheckCollision(pos, Vec3(600.0, 0.0, 0.0)) ==>
              ScoreAfterCheck(s, pos) == s
  {
    GoalCentres();
  }

  /** The score after a run of goals, each named by the goal the ball entered. */
  function ScoreAfterGoals(goals: seq<GoalFor>): Score
    decreases |goals|
  {
    if goals == [] then DEFAULT_SCORE
    else AddPoint(ScoreAfterGoals(goals[..|goals| - 1]), ScoringPlayer(goals[|goals| - 1]))
  }

  /** How many of `goals` were entered into `g`. */
  function Count(goals: seq<GoalFor>, g: GoalFor): nat
    decreases |goals|
  {
    if goals == [] then 0
    else Count(goals[..|goals| - 1], g) + (if goals[|goals| - 1] == g then 1 else 0)
  }

  /**
   * From the default score, each counter is the number of goals entered into
   * the opponent's zone, so the counters never decrease along a run.
   */
  lemma {:induction false} ScoreCountsGoals(goals: seq<GoalFor>)
    ensures ScoreAfterGoals(goals).player1Score == Count(goals, Player2)
    ensures ScoreAfterGoals(goals).player2Score == Count(goals, Player1)
    ensures ScoreAfterGoals(goals).player1Score + ScoreAfterGoals(goals).player2Score == |goals|
    decreases |goals|
  {
    if goals != [] {
      ScoreCountsGoals(goals[..|goals| - 1]);
    }
  }

  lemma {:induction false} ScoreNeverDecreases(goals: seq<GoalFor>, more: seq<GoalFor>)
    ensures ScoreAfterGoals(goals).player1Score <= ScoreAfterGoals(goals + more).player1Score
    ensures ScoreAfterGoals(goals).player2Score <= ScoreAfterGoals(goals + more).player2Score
    decreases |more|
  {
    if more != [] {
      var shorter := more[..|more| - 1];
      assert (goals + more)[..|goals + more| - 1] == goals + shorter;
      ScoreNeverDecreases(goals, shorter);
    } else {
      assert goals + more == goals;
    }
  }

  /**
   * A new ball waits off screen at (-1000, -1000) until the next `move_ball`
   * docks it. If it is launched first, as `FireBall(SpawnBall(last).0)` is,
   * it runs along the bottom wall into Player1's goal, which credits Player2,
   * whoever was to serve. With `check_goal_collision` run after every frame
   * and frames of at most 0.5 s: no goal is scored while the total flight
   * time is at most 1.725 s, and the frame that takes it past 1.725 s scores
   * for Player2.
   */
  lemma LaunchBeforeDockingScoresForPlayer2(b: Ball, last: Players.PlayerType, p1: Players.Paddle, p2: Players.Paddle,
                                            dts: seq<real>, s: Score)
    requires b.fired && b.translation == OFF_SCREEN && b.velocity == Vec3(INITIAL_BALL_SPEED, 0.0, 0.0)
    requires p1.translation.x == -300.0 && p2.translation.x == 300.0
    requires forall i :: 0 <= i < |dts| ==> 0.0 <= dts[i] <= 0.5
    requires FlightTime(dts) <= 3.0
    ensures FlightTime(dts) <= 1.725 ==>
              ScoreAfterCheck(s, Fly(b, [p1, p2], last, dts).translation) == s
    ensures dts != [] && FlightTime(dts[..|dts| - 1]) <= 1.725 < FlightTime(dts) ==>
              ScoreAfterCheck(s, Fly(b, [p1, p2], last, dts).translation) == s.(player2Score := s.player2Score + 1)
  {
    EarlyLaunchRunsAlongBottomWall(b, last, p1, p2, dts);
    var pos := Fly(b, [p1, p2], last, dts).translation;
    if dts == [] {
      assert pos == OFF_SCREEN;
    } else {
      assert FlightTime(dts) == FlightTime(dts[..|dts| - 1]) + dts[|dts| - 1];
      assert pos == Vec3(-1000.0 + INITIAL_BALL_SPEED * FlightTime(dts), BALL_MIN_Y, 0.0);
    }
    assert !CheckCollision(pos, Vec3(600.0, 0.0, 0.0));
    GoalCreditsOpponent(s, pos);
  }

  // ------------------------------------------------------------ score text

  predicate IsDigit(c: char) {
    '0' <= c <= '9'
  }

  predicate AllDigits(t: string) {
    forall i :: 0 <= i < |t| ==> IsDigit(t[i])
  }

  function DigitChar(d: nat): (c: char)
    requires d < 10
    ensures IsDigit(c)
  {
    (('0' as int) + d) as char
  }

  /** The decimal representation of `n`, without leading zeros. */
  function Decimal(n: nat): (t: string)
    ensures |t| >= 1 && AllDigits(t)
    ensures n >= 10 ==> t[0] != '0' && |t| >= 2
    ensures n < 10 <==> |t| == 1
    decreases n
  {
    if n < 10 then [DigitChar(n)] else Decimal(n / 10) + [DigitChar(n % 10)]
  }

  /** `format!("{:02}", n)`: decimal, left-padded with zeros to two characters. */
  function FormatScore(n: nat): (t: string)
    ensures |t| >= 2 && AllDigits(t)
    ensures n < 100 ==> |t| == 2
    ensures n >= 10 ==> t[0] != '0'
  {
    if n < 10 then "0" + Decimal(n) else Decimal(n)
  }

  /** The number a string of decimal digits denotes. */
  function DigitsValue(t: string): nat
    requires AllDigits(t)
    decreases |t|
  {
    if t == [] then 0
    else DigitsValue(t[..|t| - 1]) * 10 + ((t[|t| - 1] as int) - ('0' as int))
  }

  lemma {:induction false} DecimalRoundTrip(n: nat)
    ensures DigitsValue(Decimal(n)) == n
    decreases n
  {
    if n >= 10 {
      DecimalRoundTrip(n / 10);
      var t := Decimal(n);
      assert t[..|t| - 1] == Decimal(n / 10);
    }
  }

  /** Leading zeros do not change the value. */
  lemma {:induction false} LeadingZeroValue(t: string)
    requires AllDigits(t)
    ensures AllDigits("0" + t) && DigitsValue("0" + t) == DigitsValue(t)
    decreases |t|
  {
    if t != [] {
      var u := "0" + t;
      assert u[..|u| - 1] == "0" + t[..|t| - 1];
      LeadingZeroValue(t[..|t| - 1]);
    }
  }

  /** The score text reads back as the counter it shows. */
  lemma FormatScoreRoundTrip(n: nat)
    ensures DigitsValue(FormatScore(n)) == n
  {
    DecimalRoundTrip(n);
    if n < 10 {
      LeadingZeroValue(Decimal(n));
    }
  }

  /** A score label: the player it shows and its text. */
  datatype ScoreLabel = ScoreLabel(player: Players.PlayerType, text: string)

  /** The labels `setup_ui` creates, both reading "00". */
  function InitialLabels(): seq<ScoreLabel> {
    [ScoreLabel(Players.Player1, "00"), ScoreLabel(Players.Player2, "00")]
  }

  /** Every label shows its player's counter, formatted. */
  predicate LabelsShow(labels: seq<ScoreLabel>, s: Score) {
    forall i :: 0 <= i < |labels| ==> labels[i].text == FormatScore(Counter(s, labels[i].player))
  }

  /** The initial "00" texts are exactly the default score, formatted. */
  lemma InitialLabelsShowDefaultScore()
    ensures LabelsShow(InitialLabels(), DEFAULT_SCORE)
  {
    assert FormatScore(0) == "00";
  }
}
