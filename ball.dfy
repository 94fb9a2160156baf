/**
 * The ball (src/ball.rs): its state, the serve flag `LastOwner`, the
 * helpers that change a ball (`fire_ball`, `bounce_ball`), the paddle
 * overlap test, and one `move_ball` step stated as a function of the old
 * ball. `Game.World.MoveBall` and `Game.World.SpawnBall` are the systems
 * that apply these to the world and are proved against them.
 */
module Balls {
  import opened Arena
  import opened Audio
  import opened Players

  const BALL_SIZE: real := 10.0
  const INITIAL_BALL_SPEED: real := 200.0
  const SPEED_INCREMENT: real := 50.0

  /** The range a flying ball's centre is kept in by the walls: [-295, 295]. */
  const BALL_MIN_Y: real := -ARENA_HEIGHT / 2.0 + BALL_SIZE / 2.0
  const BALL_MAX_Y: real := ARENA_HEIGHT / 2.0 - BALL_SIZE / 2.0

  /** Where `spawn_ball` puts a new ball, until the next step docks it. */
  const OFF_SCREEN: Vec3 := Vec3(-1000.0, -1000.0, 0.0)

  /** The value `LastOwner` holds when the game starts. */
  const INITIAL_LAST_OWNER: PlayerType := Player1

  /** A ball entity: its `Ball` component and its transform's translation. */
  datatype Ball = Ball(velocity: Vec3, fired: bool, owner: PlayerType, translation: Vec3)

  /** `fire_ball`: launch the ball; nothing else about it changes. */
  function FireBall(b: Ball): (r: Ball)
    ensures r.fired
    ensures r.velocity == b.velocity && r.owner == b.owner && r.translation == b.translation
  {
    b.(fired := true)
  }

  lemma FireBallIdempotent(b: Ball)
    ensures FireBall(FireBall(b)) == FireBall(b)
    ensures b.fired ==> FireBall(b) == b
  {
  }

  /**
   * `bounce_ball`: nudge the vertical velocity by half the paddle's speed in
   * the direction the paddle is moving; a paddle at rest leaves it alone.
   */
  function BounceBall(b: Ball, paddle: Paddle): (r: Ball)
    ensures r.fired == b.fired && r.owner == b.owner && r.translation == b.translation
    ensures r.velocity.x == b.velocity.x && r.velocity.z == b.velocity.z
    ensures paddle.yVelocity > 0.0 ==> r.velocity.y - b.velocity.y == paddle.speed / 2.0
    ensures paddle.yVelocity < 0.0 ==> b.velocity.y - r.velocity.y == paddle.speed / 2.0
    ensures paddle.yVelocity == 0.0 ==> r == b
  {
    var adjustment := 0.5 * paddle.speed;
    if paddle.yVelocity > 0.0 then
      b.(velocity := b.velocity.(y := b.velocity.y + adjustment))
    else if paddle.yVelocity < 0.0 then
      b.(velocity := b.velocity.(y := b.velocity.y - adjustment))
    else
      b
  }

  /**
   * `check_paddle_collision`: the ball's square and the paddle's box
   * overlap, strictly, on both axes. Boxes that only touch do not collide.
   */
  function CheckPaddleCollision(ballPos: Vec3, paddlePos: Vec3): (hit: bool)
    ensures hit <==> Abs(ballPos.x - paddlePos.x) < 10.0 && Abs(ballPos.y - paddlePos.y) < 35.0
  {
    && ballPos.x + BALL_SIZE / 2.0 > paddlePos.x - PADDLE_WIDTH / 2.0
    && ballPos.x - BALL_SIZE / 2.0 < paddlePos.x + PADDLE_WIDTH / 2.0
    && ballPos.y + BALL_SIZE / 2.0 > paddlePos.y - PADDLE_HEIGHT / 2.0
    && ballPos.y - BALL_SIZE / 2.0 < paddlePos.y + PADDLE_HEIGHT / 2.0
  }

  // ---------------------------------------------------------------- docked

  /** The lead a docked ball keeps in front of its server's paddle. */
  function ServeOffset(owner: PlayerType): Vec3 {
    match owner
    case Player1 => Vec3(10.0, 2.0, 0.0)
    case Player2 => Vec3(-10.0, -2.0, 0.0)
  }

  /** Where one paddle of the docked loop leaves the ball: on it if it serves. */
  function DockAt(pos: Vec3, paddle: Paddle, lastOwner: PlayerType): Vec3 {
    if paddle.playerType == lastOwner then
      pos.(x := paddle.translation.x + ServeOffset(lastOwner).x,
           y := paddle.translation.y + ServeOffset(lastOwner).y)
    else
      pos
  }

  /**
   * The docked loop over the paddles, in iteration order. The ball keeps its
   * depth, and the last serving paddle in iteration order decides where it
   * ends up: each serving paddle overwrites what the ones before it did.
   */
  function Dock(pos: Vec3, paddles: seq<Paddle>, lastOwner: PlayerType): (r: Vec3)
    ensures r.z == pos.z
    ensures forall k :: 0 <= k < |paddles| && paddles[k].playerType == lastOwner &&
                        (forall j :: k < j < |paddles| ==> paddles[j].playerType != lastOwner) ==>
              r == Vec3(paddles[k].translation.x + ServeOffset(lastOwner).x,
                        paddles[k].translation.y + ServeOffset(lastOwner).y,
                        pos.z)
    decreases |paddles|
  {
    if paddles == [] then pos
    else DockAt(Dock(pos, paddles[..|paddles| - 1], lastOwner), paddles[|paddles| - 1], lastOwner)
  }

  /** With no serving paddle the docked loop leaves the ball where it is. */
  lemma {:induction false} DockWithoutServer(pos: Vec3, paddles: seq<Paddle>, lastOwner: PlayerType)
    requires forall j :: 0 <= j < |paddles| ==> paddles[j].playerType != lastOwner
    ensures Dock(pos, paddles, lastOwner) == pos
    decreases |paddles|
  {
    if paddles != [] {
      DockWithoutServer(pos, paddles[..|paddles| - 1], lastOwner);
    }
  }

  /**
   * With exactly one serving paddle, at index `k`, the docked loop puts the
   * ball at that paddle plus the serve offset, keeping the ball's depth.
   */
  lemma {:induction false} DockAtServer(pos: Vec3, paddles: seq<Paddle>, lastOwner: PlayerType, k: nat)
    requires k < |paddles| && paddles[k].playerType == lastOwner
    requires forall j :: 0 <= j < |paddles| && j != k ==> paddles[j].playerType != lastOwner
    ensures Dock(pos, paddles, lastOwner) ==
              Vec3(paddles[k].translation.x + ServeOffset(lastOwner).x,
                   paddles[k].translation.y + ServeOffset(lastOwner).y,
                   pos.z)
    decreases |paddles|
  {
    var n := |paddles| - 1;
    if k == n {
      DockWithoutServer(pos, paddles[..n], lastOwner);
    } else {
      DockAtServer(pos, paddles[..n], lastOwner, k);
    }
  }

  // ------------------------------------------------------------- in flight

  /** Explicit Euler: the ball moves by its velocity times the frame time. */
  function Integrate(b: Ball, dt: real): Ball {
    b.(translation := b.translation.Plus(b.velocity.Times(dt)))
  }

  /** The ball's centre has passed the top or the bottom wall. */
  predicate PastWall(b: Ball) {
    b.translation.y > BALL_MAX_Y || b.translation.y < BALL_MIN_Y
  }

  /**
   * The wall check of `move_ball`: a ball past a wall is put back on it and
   * its vertical velocity is negated, once.
   */
  function ReflectOffWalls(b: Ball): (r: Ball)
    ensures BALL_MIN_Y <= r.translation.y <= BALL_MAX_Y
    ensures b.translation.y > BALL_MAX_Y ==> r.translation.y == BALL_MAX_Y
    ensures b.translation.y < BALL_MIN_Y ==> r.translation.y == BALL_MIN_Y
    ensures r.velocity.y == if PastWall(b) then -b.velocity.y else b.velocity.y
    ensures !PastWall(b) ==> r == b
    ensures r.translation.x == b.translation.x && r.translation.z == b.translation.z
    ensures r.velocity.x == b.velocity.x && r.velocity.z == b.velocity.z
    ensures r.fired == b.fired && r.owner == b.owner
  {
    if b.translation.y > BALL_MAX_Y then
      b.(translation := b.translation.(y := BALL_MAX_Y), velocity := b.velocity.(y := -b.velocity.y))
    else if b.translation.y < BALL_MIN_Y then
      b.(translation := b.translation.(y := BALL_MIN_Y), velocity := b.velocity.(y := -b.velocity.y))
    else
      b
  }

  /** The index of the first paddle, in iteration order, that the ball overlaps. */
  function FirstPaddleHit(pos: Vec3, paddles: seq<Paddle>): (k: Option<nat>)
    ensures k.Some? ==> k.value < |paddles| && CheckPaddleCollision(pos, paddles[k.value].translation)
    ensures k.Some? ==> forall j :: 0 <= j < k.value ==> !CheckPaddleCollision(pos, paddles[j].translation)
    ensures k.None? ==> forall j :: 0 <= j < |paddles| ==> !CheckPaddleCollision(pos, paddles[j].translation)
  {
    if paddles == [] then None
    else if CheckPaddleCollision(pos, paddles[0].translation) then Some(0)
    else match FirstPaddleHit(pos, paddles[1..])
         case None => None
         case Some(k) => Some(k + 1)
  }

  /** The paddle loop over two paddles: the first one, else the second, else none. */
  lemma FirstPaddleHitOfTwo(pos: Vec3, p1: Paddle, p2: Paddle)
    ensures FirstPaddleHit(pos, [p1, p2]) ==
              if CheckPaddleCollision(pos, p1.translation) then Some(0)
              else if CheckPaddleCollision(pos, p2.translation) then Some(1)
              else None
  {
    assert [p1, p2][1..] == [p2];
    assert [p2][1..] == [];
  }

  /**
   * The response to a paddle hit: reflect the horizontal velocity, push it
   * away from the paddle by `SPEED_INCREMENT`, then `bounce_ball`.
   */
  function PaddleBounce(b: Ball, paddle: Paddle): (r: Ball)
    ensures paddle.playerType == Player1 ==> r.velocity.x == -b.velocity.x + 50.0
    ensures paddle.playerType == Player2 ==> r.velocity.x == -b.velocity.x - 50.0
    ensures r.velocity.y == BounceBall(b, paddle).velocity.y && r.velocity.z == b.velocity.z
    ensures r.translation == b.translation && r.fired == b.fired && r.owner == b.owner
  {
    var reflected := b.(velocity := b.velocity.(x := -b.velocity.x));
    var pushed := match paddle.playerType
      case Player1 => reflected.(velocity := reflected.velocity.Plus(Vec3(SPEED_INCREMENT, 0.0, 0.0)))
      case Player2 => reflected.(velocity := reflected.velocity.Minus(Vec3(SPEED_INCREMENT, 0.0, 0.0)));
    BounceBall(pushed, paddle)
  }

  /**
   * A ball coming at a paddle leaves it exactly `SPEED_INCREMENT` faster
   * horizontally; one that hits a paddle while moving away from it by more
   * than that leaves slower.
   */
  lemma PaddleBounceSpeed(b: Ball, paddle: Paddle)
    ensures paddle.playerType == Player1 && b.velocity.x <= 0.0 ==>
              Abs(PaddleBounce(b, paddle).velocity.x) == Abs(b.velocity.x) + SPEED_INCREMENT
    ensures paddle.playerType == Player2 && b.velocity.x >= 0.0 ==>
              Abs(PaddleBounce(b, paddle).velocity.x) == Abs(b.velocity.x) + SPEED_INCREMENT
    ensures paddle.playerType == Player1 && b.velocity.x > SPEED_INCREMENT ==>
              Abs(PaddleBounce(b, paddle).velocity.x) == Abs(b.velocity.x) - SPEED_INCREMENT
    ensures paddle.playerType == Player2 && b.velocity.x < -SPEED_INCREMENT ==>
              Abs(PaddleBounce(b, paddle).velocity.x) == Abs(b.velocity.x) - SPEED_INCREMENT
  {
  }

  /**
   * One in-flight step: integrate, reflect off the walls, bounce off the
   * first paddle hit. Horizontally the ball moves by exactly its old
   * velocity times `dt`: walls and paddles change only its velocity and its
   * height.
   */
  function FlightStep(b: Ball, paddles: seq<Paddle>, dt: real): (r: Ball)
    ensures r.translation.x == b.translation.x + b.velocity.x * dt
    ensures r.translation.z == b.translation.z + b.velocity.z * dt
    ensures BALL_MIN_Y <= r.translation.y <= BALL_MAX_Y
    ensures r.fired == b.fired && r.owner == b.owner
  {
    var w := ReflectOffWalls(Integrate(b, dt));
    match FirstPaddleHit(w.translation, paddles)
    case None => w
    case Some(k) => PaddleBounce(w, paddles[k])
  }

  /** `move_ball` on one ball: a docked ball follows its server, a fired one flies. */
  function MoveBallStep(b: Ball, paddles: seq<Paddle>, lastOwner: PlayerType, dt: real): (r: Ball)
    ensures r.fired == b.fired && r.owner == b.owner
    ensures !b.fired ==> r.velocity == b.velocity
  {
    if !b.fired then b.(translation := Dock(b.translation, paddles, lastOwner))
    else FlightStep(b, paddles, dt)
  }

  /**
   * The cues `move_ball` requests: none for a docked ball; for a flying one
   * a `Hit` when it passed a wall, then a `Bounce` when it hit a paddle.
   */
  function MoveBallSounds(b: Ball, paddles: seq<Paddle>, dt: real): (r: seq<Sound>)
    ensures !b.fired ==> r == []
    ensures Hit in r <==> b.fired && PastWall(Integrate(b, dt))
    ensures Bounce in r <==> b.fired && FirstPaddleHit(ReflectOffWalls(Integrate(b, dt)).translation, paddles).Some?
    ensures Win !in r && |r| <= 2
    ensures |r| == 2 ==> r == [Hit, Bounce]
  {
    if !b.fired then []
    else
      var w := ReflectOffWalls(Integrate(b, dt));
      (if PastWall(Integrate(b, dt)) then [Hit] else [])
      + (if FirstPaddleHit(w.translation, paddles).Some? then [Bounce] else [])
  }

  /**
   * A docked ball served by exactly one paddle snaps to that paddle plus the
   * serve offset; its velocity, flag and owner stay, and no cue is played.
   */
  lemma DockedStepFollowsServer(b: Ball, paddles: seq<Paddle>, lastOwner: PlayerType, dt: real, k: nat)
    requires !b.fired
    requires k < |paddles| && paddles[k].playerType == lastOwner
    requires forall j :: 0 <= j < |paddles| && j != k ==> paddles[j].playerType != lastOwner
    ensures MoveBallStep(b, paddles, lastOwner, dt) ==
              b.(translation := Vec3(paddles[k].translation.x + ServeOffset(lastOwner).x,
                                     paddles[k].translation.y + ServeOffset(lastOwner).y,
                                     b.translation.z))
    ensures MoveBallSounds(b, paddles, dt) == []
  {
    DockAtServer(b.translation, paddles, lastOwner, k);
  }

  /** After an in-flight step the ball lies between the walls. */
  lemma FlightStaysBetweenWalls(b: Ball, paddles: seq<Paddle>, lastOwner: PlayerType, dt: real)
    requires b.fired
    ensures BALL_MIN_Y <= MoveBallStep(b, paddles, lastOwner, dt).translation.y <= BALL_MAX_Y
  {
  }

  /**
   * An in-flight step applies at most one paddle bounce: the horizontal
   * velocity is either kept, or reflected and pushed away from the first
   * paddle hit. The cues are a `Hit` for a wall and a `Bounce` for a paddle.
   */
  lemma FlightBouncesAtMostOnce(b: Ball, paddles: seq<Paddle>, lastOwner: PlayerType, dt: real)
    requires b.fired
    ensures var r := MoveBallStep(b, paddles, lastOwner, dt);
            var vx := b.velocity.x;
            match FirstPaddleHit(ReflectOffWalls(Integrate(b, dt)).translation, paddles)
            case None =>
              r.velocity.x == vx && Bounce !in MoveBallSounds(b, paddles, dt)
            case Some(k) =>
              && (paddles[k].playerType == Player1 ==> r.velocity.x == -vx + SPEED_INCREMENT)
              && (paddles[k].playerType == Player2 ==> r.velocity.x == -vx - SPEED_INCREMENT)
              && multiset(MoveBallSounds(b, paddles, dt))[Bounce] == 1
    ensures Hit in MoveBallSounds(b, paddles, dt) <==> PastWall(Integrate(b, dt))
  {
  }

  /**
   * The vertical velocity after an in-flight step: negated if a wall was
   * hit, then nudged by half the speed of the paddle hit, if it was moving.
   */
  lemma FlightVerticalVelocity(b: Ball, paddles: seq<Paddle>, lastOwner: PlayerType, dt: real)
    requires b.fired
    ensures var r := MoveBallStep(b, paddles, lastOwner, dt);
            var vy := if PastWall(Integrate(b, dt)) then -b.velocity.y else b.velocity.y;
            match FirstPaddleHit(ReflectOffWalls(Integrate(b, dt)).translation, paddles)
            case None => r.velocity.y == vy
            case Some(k) =>
              && (paddles[k].yVelocity > 0.0 ==> r.velocity.y == vy + paddles[k].speed / 2.0)
              && (paddles[k].yVelocity < 0.0 ==> r.velocity.y == vy - paddles[k].speed / 2.0)
              && (paddles[k].yVelocity == 0.0 ==> r.velocity.y == vy)
  {
  }

  /** A docked ball rests against its server's paddle face: the boxes touch but do not overlap. */
  lemma DockedBallOnlyTouchesServer(pos: Vec3, paddle: Paddle)
    ensures !CheckPaddleCollision(DockAt(pos, paddle, paddle.playerType), paddle.translation)
  {
  }

  /**
   * Every ball starts with velocity (+200, 0, 0), so a ball served from
   * Player2's paddle, launched and moved by a frame shorter than 0.1 s,
   * overlaps that same paddle and is sent back at -250.
   */
  lemma Player2ServeBouncesOffOwnPaddle(p1: Paddle, p2: Paddle, dtDock: real, dt: real)
    requires p1.playerType == Player1 && p1.translation.x == -300.0
    requires p2.playerType == Player2 && p2.translation.x == 300.0
    requires PADDLE_MIN_Y <= p2.translation.y <= PADDLE_MAX_Y
    requires 0.0 < dt < 0.1
    ensures var served := SpawnBall(Player1);
            var docked := MoveBallStep(served.0, [p1, p2], served.1, dtDock);
            var flown := MoveBallStep(FireBall(docked), [p1, p2], served.1, dt);
            && docked.translation.x == 290.0
            && FirstPaddleHit(flown.translation, [p1, p2]) == Some(1)
            && flown.velocity.x == -INITIAL_BALL_SPEED - SPEED_INCREMENT
  {
    var served := SpawnBall(Player1);
    DockedStepFollowsServer(served.0, [p1, p2], Player2, dtDock, 1);
    var docked := MoveBallStep(served.0, [p1, p2], Player2, dtDock);
    var w := ReflectOffWalls(Integrate(FireBall(docked), dt));
    assert w.translation == Integrate(FireBall(docked), dt).translation;
    assert !CheckPaddleCollision(w.translation, p1.translation);
    assert CheckPaddleCollision(w.translation, p2.translation);
    FirstPaddleHitOfTwo(w.translation, p1, p2);
  }

  /** A ball served from Player1's paddle moves away from it and keeps its velocity. */
  lemma Player1ServeLeavesOwnPaddle(p1: Paddle, p2: Paddle, dtDock: real, dt: real)
    requires p1.playerType == Player1 && p1.translation.x == -300.0
    requires p2.playerType == Player2 && p2.translation.x == 300.0
    requires PADDLE_MIN_Y <= p1.translation.y <= PADDLE_MAX_Y
    requires 0.0 <= dt < 2.0
    ensures var served := SpawnBall(Player2);
            var docked := MoveBallStep(served.0, [p1, p2], served.1, dtDock);
            var flown := MoveBallStep(FireBall(docked), [p1, p2], served.1, dt);
            && docked.translation.x == -290.0
            && flown.velocity == Vec3(INITIAL_BALL_SPEED, 0.0, 0.0)
            && flown.translation.x == -290.0 + INITIAL_BALL_SPEED * dt
  {
    var served := SpawnBall(Player2);
    DockedStepFollowsServer(served.0, [p1, p2], Player1, dtDock, 0);
    var docked := MoveBallStep(served.0, [p1, p2], Player1, dtDock);
    var w := ReflectOffWalls(Integrate(FireBall(docked), dt));
    assert w == Integrate(FireBall(docked), dt);
    assert !CheckPaddleCollision(w.translation, p1.translation);
    assert !CheckPaddleCollision(w.translation, p2.translation);
    FirstPaddleHitOfTwo(w.translation, p1, p2);
  }

  /** Player1's paddle at rest at its spawn position. */
  function RestingPaddle1(): Paddle {
    Paddle(PLAYER_SPEED, Player1, 0.0, Vec3(-300.0, 0.0, 0.0))
  }

  /** Player2's paddle at rest at its spawn position. */
  function RestingPaddle2(): Paddle {
    Paddle(PLAYER_SPEED, Player2, 0.0, Vec3(300.0, 0.0, 0.0))
  }

  /**
   * A ball served from Player1's paddle at rest at (-300, 0) sits at
   * (-290, 2); launched, one second later it is at (-90, 2) at (200, 0, 0).
   */
  lemma ServeScenario()
    ensures var paddles := [RestingPaddle1(), RestingPaddle2()];
            var docked := MoveBallStep(SpawnBall(Player2).0, paddles, Player1, 0.0);
            var flown := MoveBallStep(FireBall(docked), paddles, Player1, 1.0);
            && docked.translation == Vec3(-290.0, 2.0, 0.0)
            && flown.translation == Vec3(-90.0, 2.0, 0.0)
            && flown.velocity == Vec3(200.0, 0.0, 0.0)
  {
    var paddles := [RestingPaddle1(), RestingPaddle2()];
    DockedStepFollowsServer(SpawnBall(Player2).0, paddles, Player1, 0.0, 0);
    var docked := MoveBallStep(SpawnBall(Player2).0, paddles, Player1, 0.0);
    var moved := Integrate(FireBall(docked), 1.0);
    assert moved.translation == Vec3(-90.0, 2.0, 0.0);
    assert ReflectOffWalls(moved) == moved;
    FirstPaddleHitOfTwo(moved.translation, RestingPaddle1(), RestingPaddle2());
  }

  /**
   * The paddle loop of `move_ball` for a ball at (291, 2) or (290, 2) moving
   * at (200, 0, 0) toward Player2's paddle at rest at (300, 0). The frame
   * is of length zero, so the ball is tested where it stands: this is the
   * overlap test and the bounce, not a frame of flight. At x = 291 the ball
   * overlaps and leaves at (-250, 0, 0); at x = 290 the boxes only touch and
   * the velocity is kept.
   */
  lemma ReturnScenario(b: Ball, p1: Paddle, p2: Paddle)
    requires b.fired && b.velocity == Vec3(200.0, 0.0, 0.0) && b.translation.y == 2.0
    requires b.translation.x == 291.0 || b.translation.x == 290.0
    requires p1.playerType == Player1 && p1.translation.x == -300.0
    requires p2.playerType == Player2 && p2.translation.x == 300.0 && p2.translation.y == 0.0
    requires p2.yVelocity == 0.0
    ensures b.translation.x == 291.0 ==>
              MoveBallStep(b, [p1, p2], Player1, 0.0).velocity == Vec3(-250.0, 0.0, 0.0)
    ensures b.translation.x == 290.0 ==>
              MoveBallStep(b, [p1, p2], Player1, 0.0).velocity == Vec3(200.0, 0.0, 0.0)
  {
    assert Integrate(b, 0.0).translation == b.translation;
    assert !CheckPaddleCollision(b.translation, p1.translation);
    FirstPaddleHitOfTwo(b.translation, p1, p2);
  }

  // ----------------------------------------------------------------- spawn

  /**
   * `spawn_ball`: a new docked ball, off screen, with the initial velocity,
   * owned by the opposite of `LastOwner`; `LastOwner` flips to that player.
   * Returns the ball and the new `LastOwner`.
   */
  function SpawnBall(lastOwner: PlayerType): (s: (Ball, PlayerType))
    ensures !s.0.fired && s.0.translation == OFF_SCREEN
    ensures s.0.velocity == Vec3(INITIAL_BALL_SPEED, 0.0, 0.0)
    ensures s.1 == Opponent(lastOwner) && s.0.owner == s.1
  {
    match lastOwner
    case Player1 =>
      (Ball(Vec3(INITIAL_BALL_SPEED, 0.0, 0.0), false, Player2, Vec3(-1000.0, -1000.0, 0.0)), Player2)
    case Player2 =>
      (Ball(Vec3(INITIAL_BALL_SPEED, 0.0, 0.0), false, Player1, Vec3(-1000.0, -1000.0, 0.0)), Player1)
  }

  /** Two spawns in a row give `LastOwner` back its old value. */
  lemma SpawnTwiceRestoresOwner(lastOwner: PlayerType)
    ensures SpawnBall(SpawnBall(lastOwner).1).1 == lastOwner
  {
  }

  /** The owners of `n` balls spawned one after another, starting from `lastOwner`. */
  function SpawnOwners(lastOwner: PlayerType, n: nat): seq<PlayerType>
    decreases n
  {
    if n == 0 then []
    else var s := SpawnBall(lastOwner); [s.0.owner] + SpawnOwners(s.1, n - 1)
  }

  /** `LastOwner` after `n` spawns, starting from `lastOwner`. */
  function LastOwnerAfter(lastOwner: PlayerType, n: nat): PlayerType
    decreases n
  {
    if n == 0 then lastOwner else LastOwnerAfter(SpawnBall(lastOwner).1, n - 1)
  }

  /**
   * Spawn owners alternate: the first ball goes to the opposite of
   * `lastOwner`, the second back to `lastOwner`, and so on.
   */
  lemma {:induction false} SpawnOwnersAlternate(lastOwner: PlayerType, n: nat)
    ensures |SpawnOwners(lastOwner, n)| == n
    ensures forall i :: 0 <= i < n ==>
              SpawnOwners(lastOwner, n)[i] == if i % 2 == 0 then Opponent(lastOwner) else lastOwner
    ensures LastOwnerAfter(lastOwner, n) == if n % 2 == 0 then lastOwner else Opponent(lastOwner)
    decreases n
  {
    if n > 0 {
      var next := SpawnBall(lastOwner).1;
      SpawnOwnersAlternate(next, n - 1);
      assert Opponent(next) == lastOwner;
      forall i | 0 <= i < n
        ensures SpawnOwners(lastOwner, n)[i] == if i % 2 == 0 then Opponent(lastOwner) else lastOwner
      {
        if i > 0 {
          assert SpawnOwners(lastOwner, n)[i] == SpawnOwners(next, n - 1)[i - 1];
        }
      }
    }
  }

  /** From `LastOwner = Player1`, the startup spawn serves from Player2 and leaves `LastOwner = Player2`. */
  lemma StartupServesFromPlayer2()
    ensures SpawnBall(INITIAL_LAST_OWNER).0.owner == Player2
    ensures SpawnBall(INITIAL_LAST_OWNER).1 == Player2
  {
  }

  // ------------------------------------------------ launched before docking

  /** The total time of a run of frames. */
  function FlightTime(dts: seq<real>): real
    decreases |dts|
  {
    if dts == [] then 0.0 else FlightTime(dts[..|dts| - 1]) + dts[|dts| - 1]
  }

  /**
   * `move_ball` applied over a run of frames of lengths `dts`, in order,
   * with no goal check in between. The launch flag and the owner are kept.
   */
  function Fly(b: Ball, paddles: seq<Paddle>, lastOwner: PlayerType, dts: seq<real>): (r: Ball)
    ensures r.fired == b.fired && r.owner == b.owner
    decreases |dts|
  {
    if dts == [] then b
    else MoveBallStep(Fly(b, paddles, lastOwner, dts[..|dts| - 1]), paddles, lastOwner, dts[|dts| - 1])
  }

  /**
   * A flying ball at or below the bottom wall, moving right at the initial
   * speed and still short of Player1's paddle after the frame, ends the frame
   * on the bottom wall, moved right by 200 per second, with the same velocity.
   */
  lemma RunAlongBottomWall(b: Ball, lastOwner: PlayerType, p1: Paddle, p2: Paddle, dt: real)
    requires b.fired && b.velocity == Vec3(INITIAL_BALL_SPEED, 0.0, 0.0)
    requires b.translation.y <= BALL_MIN_Y && b.translation.z == 0.0
    requires p1.translation.x == -300.0 && p2.translation.x == 300.0
    requires 0.0 <= dt && b.translation.x + INITIAL_BALL_SPEED * dt <= -400.0
    ensures MoveBallStep(b, [p1, p2], lastOwner, dt) ==
              b.(translation := Vec3(b.translation.x + INITIAL_BALL_SPEED * dt, BALL_MIN_Y, 0.0))
  {
    var moved := Integrate(b, dt);
    assert moved.translation == Vec3(b.translation.x + INITIAL_BALL_SPEED * dt, b.translation.y, 0.0);
    var w := ReflectOffWalls(moved);
    assert w == b.(translation := Vec3(b.translation.x + INITIAL_BALL_SPEED * dt, BALL_MIN_Y, 0.0));
    assert !CheckPaddleCollision(w.translation, p1.translation);
    assert !CheckPaddleCollision(w.translation, p2.translation);
    FirstPaddleHitOfTwo(w.translation, p1, p2);
  }

  /**
   * A new ball launched before `move_ball` docks it flies from (-1000, -1000)
   * up to the bottom wall and then along it, at 200 per second, whatever the
   * frame lengths, until it comes within reach of Player1's paddle.
   */
  lemma {:induction false} EarlyLaunchRunsAlongBottomWall(b: Ball, lastOwner: PlayerType, p1: Paddle, p2: Paddle, dts: seq<real>)
    requires b.fired && b.translation == OFF_SCREEN && b.velocity == Vec3(INITIAL_BALL_SPEED, 0.0, 0.0)
    requires p1.translation.x == -300.0 && p2.translation.x == 300.0
    requires forall i :: 0 <= i < |dts| ==> 0.0 <= dts[i]
    requires FlightTime(dts) <= 3.0
    ensures dts != [] ==>
              Fly(b, [p1, p2], lastOwner, dts) ==
                b.(translation := Vec3(-1000.0 + INITIAL_BALL_SPEED * FlightTime(dts), BALL_MIN_Y, 0.0))
    decreases |dts|
  {
    if dts != [] {
      var n := |dts| - 1;
      var earlier := dts[..n];
      assert FlightTime(earlier) <= FlightTime(dts);
      EarlyLaunchRunsAlongBottomWall(b, lastOwner, p1, p2, earlier);
      RunAlongBottomWall(Fly(b, [p1, p2], lastOwner, earlier), lastOwner, p1, p2, dts[n]);
    }
  }
}
