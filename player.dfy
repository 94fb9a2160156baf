/**
 * The paddles (src/player.rs): the two players, each paddle's state, the
 * paddles created at startup and the per-frame, key-driven vertical move.
 * The system that applies the move to every paddle is
 * `Game.World.PlayerMovement`; this module gives the per-paddle step it is
 * proved against.
 */
module Players {
  import opened Arena

  const PLAYER_SPEED: real := 300.0
  const PADDLE_HEIGHT: real := 60.0
  /** The paddle sprite's width, also the width of its collision box. */
  const PADDLE_WIDTH: real := 10.0

  /** The range a paddle's centre is clamped to: [-270, 270]. */
  const PADDLE_MIN_Y: real := -ARENA_HEIGHT / 2.0 + PADDLE_HEIGHT / 2.0
  const PADDLE_MAX_Y: real := ARENA_HEIGHT / 2.0 - PADDLE_HEIGHT / 2.0

  datatype PlayerType = Player1 | Player2

  function Opponent(p: PlayerType): (q: PlayerType)
    ensures q != p
  {
    match p
    case Player1 => Player2
    case Player2 => Player1
  }

  /** A paddle entity: its `Paddle` component and its transform's translation. */
  datatype Paddle = Paddle(speed: real, playerType: PlayerType, yVelocity: real, translation: Vec3)

  /** The keys held during a frame, as the keyboard resource reports them. */
  datatype Keys = Keys(w: bool, s: bool, up: bool, down: bool, space: bool)

  /** Player1 moves up with W, Player2 with the Up arrow. */
  predicate UpHeld(p: PlayerType, keys: Keys) {
    match p
    case Player1 => keys.w
    case Player2 => keys.up
  }

  /** Player1 moves down with S, Player2 with the Down arrow. */
  predicate DownHeld(p: PlayerType, keys: Keys) {
    match p
    case Player1 => keys.s
    case Player2 => keys.down
  }

  /** The two paddles `spawn_players` creates, in spawn order. */
  function SpawnPlayers(): seq<Paddle> {
    [ Paddle(PLAYER_SPEED, Player1, 0.0, Vec3(-300.0, 0.0, 0.0)),
      Paddle(PLAYER_SPEED, Player2, 0.0, Vec3(300.0, 0.0, 0.0)) ]
  }

  lemma SpawnPlayersAtRest()
    ensures |SpawnPlayers()| == 2
    ensures SpawnPlayers()[0].playerType == Player1 && SpawnPlayers()[0].translation == Vec3(-300.0, 0.0, 0.0)
    ensures SpawnPlayers()[1].playerType == Player2 && SpawnPlayers()[1].translation == Vec3(300.0, 0.0, 0.0)
    ensures forall i :: 0 <= i < |SpawnPlayers()| ==>
              && SpawnPlayers()[i].speed == PLAYER_SPEED
              && SpawnPlayers()[i].yVelocity == 0.0
              && PADDLE_MIN_Y <= SpawnPlayers()[i].translation.y <= PADDLE_MAX_Y
  {
  }

  /**
   * The distance a paddle would travel this frame: `speed * dt` up for the
   * up key, the same down for the down key, accumulated in that order.
   */
  function YDelta(p: Paddle, keys: Keys, dt: real): (d: real)
    ensures UpHeld(p.playerType, keys) && !DownHeld(p.playerType, keys) ==> d == p.speed * dt
    ensures DownHeld(p.playerType, keys) && !UpHeld(p.playerType, keys) ==> d == -(p.speed * dt)
    ensures UpHeld(p.playerType, keys) == DownHeld(p.playerType, keys) ==> d == 0.0
  {
    var step := p.speed * dt;
    var afterUp := if UpHeld(p.playerType, keys) then 0.0 + step else 0.0;
    if DownHeld(p.playerType, keys) then afterUp - step else afterUp
  }

  /** Each player's paddle answers only to its own pair of keys. */
  lemma YDeltaIgnoresOtherKeys(p: Paddle, keys: Keys, other: Keys, dt: real)
    requires p.playerType == Player1 ==> keys.w == other.w && keys.s == other.s
    requires p.playerType == Player2 ==> keys.up == other.up && keys.down == other.down
    ensures YDelta(p, keys, dt) == YDelta(p, other, dt)
  {
  }

  /**
   * One paddle's move in `player_movement`: add the delta, clamp to the
   * arena, and derive the velocity from the unclamped delta.
   */
  function MovePaddle(p: Paddle, keys: Keys, dt: real): (q: Paddle)
    requires dt > 0.0
    ensures PADDLE_MIN_Y <= q.translation.y <= PADDLE_MAX_Y
    ensures q.translation.y == Clamp(p.translation.y + YDelta(p, keys, dt), PADDLE_MIN_Y, PADDLE_MAX_Y)
    ensures PADDLE_MIN_Y <= p.translation.y + YDelta(p, keys, dt) <= PADDLE_MAX_Y ==>
              q.translation.y == p.translation.y + YDelta(p, keys, dt)
    ensures q.yVelocity == YDelta(p, keys, dt) / dt
    ensures q.translation.x == p.translation.x && q.translation.z == p.translation.z
    ensures q.speed == p.speed && q.playerType == p.playerType
  {
    var yDelta := YDelta(p, keys, dt);
    var newY := p.translation.y + yDelta;
    p.(translation := p.translation.(y := Clamp(newY, PADDLE_MIN_Y, PADDLE_MAX_Y)),
       yVelocity := yDelta / dt)
  }

  /**
   * The reported velocity is the paddle's speed, signed by the key held, and
   * zero with neither or both keys held.
   */
  lemma MovePaddleVelocity(p: Paddle, keys: Keys, dt: real)
    requires dt > 0.0
    ensures UpHeld(p.playerType, keys) && !DownHeld(p.playerType, keys) ==> MovePaddle(p, keys, dt).yVelocity == p.speed
    ensures DownHeld(p.playerType, keys) && !UpHeld(p.playerType, keys) ==> MovePaddle(p, keys, dt).yVelocity == -p.speed
    ensures UpHeld(p.playerType, keys) == DownHeld(p.playerType, keys) ==> MovePaddle(p, keys, dt).yVelocity == 0.0
  {
    var d := YDelta(p, keys, dt);
    if UpHeld(p.playerType, keys) && !DownHeld(p.playerType, keys) {
      assert d / dt == (p.speed * dt) / dt == p.speed;
    } else if DownHeld(p.playerType, keys) && !UpHeld(p.playerType, keys) {
      assert d / dt == -(p.speed * dt) / dt == -p.speed;
    }
  }

  /**
   * A paddle pinned at the top with the up key held does not move, yet still
   * reports its full upward speed: the velocity comes from the unclamped delta.
   */
  lemma PinnedPaddleStillReportsVelocity(p: Paddle, keys: Keys, dt: real)
    requires dt > 0.0 && p.speed > 0.0
    requires p.translation.y == PADDLE_MAX_Y
    requires UpHeld(p.playerType, keys) && !DownHeld(p.playerType, keys)
    ensures MovePaddle(p, keys, dt).translation == p.translation
    ensures MovePaddle(p, keys, dt).yVelocity == p.speed > 0.0
  {
    MovePaddleVelocity(p, keys, dt);
  }
}
