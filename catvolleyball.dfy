/** The game's data: configuration constants, the Ball and Player components, the ScoreBoard
    resource, and the world that the three per-frame systems read and update.

    The entity-component storage of the engine is modelled by a `World` object whose fields are
    the storages the systems join over: one sequence of ball entities (the Ball component paired
    with its transform's translation), one sequence of player entities, the ScoreBoard resource,
    and the list of sound events triggered so far. */
module CatVolleyball {

  /** The size of a paddle. */
  const PLAYER_HEIGHT: real := 32.0
  const PLAYER_WIDTH: real := 32.0

  /** The size of the arena. */
  const ARENA_HEIGHT: real := 500.0
  const ARENA_WIDTH: real := 500.0

  /** The velocity and the radius a ball is created with. */
  const BALL_VELOCITY_X: real := 60.0
  const BALL_VELOCITY_Y: real := -50.0
  const BALL_RADIUS: real := 16.0

  datatype Option<T> = None | Some(value: T)

  /** A pair of coordinates: a translation (the z coordinate is not used by the game) or a
      velocity (`[f32; 2]`, index 0 is x and index 1 is y). */
  datatype Vec2 = Vec2(x: real, y: real)

  /** The Ball component. Its position lives in the entity's transform. */
  datatype Ball = Ball(velocity: Vec2, radius: real)

  datatype Side = Left | Right

  /** The Player component: the paddle's side and its size. Its position lives in the
      entity's transform. */
  datatype Player = Player(side: Side, width: real, height: real)

  /** A ball entity as the systems see it when they join the Ball storage with the Transform
      storage. */
  datatype BallEntity = BallEntity(ball: Ball, translation: Vec2)

  /** A player entity: its Player component joined with its transform's translation. */
  datatype PlayerEntity = PlayerEntity(player: Player, translation: Vec2)

  /** The ScoreBoard resource (`i32` fields, modelled as unbounded integers). */
  datatype ScoreBoard = ScoreBoard(scoreLeft: int, scoreRight: int)

  /** The abstract sound triggers: `play_bounce_sound` and `play_score_sound`. */
  datatype Sound = BounceSound | ScoreSound

  /** `f32::abs`. */
  function Abs(v: real): (r: real)
    ensures r >= 0.0
    ensures r == v || r == -v
  {
    if v < 0.0 then -v else v
  }

  /** `i32::min`, as used by the scoring system. */
  function Min(a: int, b: int): (m: int)
    ensures m <= a && m <= b
    ensures m == a || m == b
  {
    if a <= b then a else b
  }

  /** `Player::new`: a paddle of the configured size on the given side. */
  function NewPlayer(side: Side): (p: Player)
    ensures p.side == side
    ensures p.width == PLAYER_WIDTH && p.height == PLAYER_HEIGHT
    ensures p.width == p.height == 32.0
  {
    Player(side, PLAYER_WIDTH, PLAYER_HEIGHT)
  }

  /** The ball entity that `initialize_ball` creates: in the middle of the arena, moving with the
      configured velocity. Its centre is farther than its radius from every wall, so the ball as
      created, before any motion step, triggers no wall bounce and no ground touch. */
  function InitializeBall(): (e: BallEntity)
    ensures e.translation == Vec2(ARENA_WIDTH / 2.0, ARENA_HEIGHT / 2.0) == Vec2(250.0, 250.0)
    ensures e.ball.velocity == Vec2(60.0, -50.0) && e.ball.radius == 16.0
    ensures e.ball.radius < e.translation.x < ARENA_WIDTH - e.ball.radius
    ensures e.ball.radius < e.translation.y < ARENA_HEIGHT - e.ball.radius
  {
    BallEntity(Ball(Vec2(BALL_VELOCITY_X, BALL_VELOCITY_Y), BALL_RADIUS),
               Vec2(ARENA_WIDTH / 2.0, ARENA_HEIGHT / 2.0))
  }

  /** The two player entities that `initialize_players` creates, left one first: both stand on
      the ground, each half a paddle away from its own wall, mirrored about the middle line. */
  function InitializePlayers(): (ps: seq<PlayerEntity>)
    ensures |ps| == 2
    ensures ps[0].player == NewPlayer(Left) && ps[1].player == NewPlayer(Right)
    ensures ps[0].player.side != ps[1].player.side
    ensures forall k :: 0 <= k < |ps| ==> ps[k].translation.y == 16.0
    ensures ps[0].translation.x == 16.0 && ps[1].translation.x == 484.0
    ensures ps[0].translation.x + ps[1].translation.x == ARENA_WIDTH
  {
    var y := PLAYER_HEIGHT / 2.0;
    [PlayerEntity(NewPlayer(Left), Vec2(PLAYER_WIDTH * 0.5, y)),
     PlayerEntity(NewPlayer(Right), Vec2(ARENA_WIDTH - PLAYER_WIDTH * 0.5, y))]
  }

  /** `ScoreBoard::default()`. */
  function DefaultScoreBoard(): (s: ScoreBoard)
    ensures s.scoreLeft == 0 && s.scoreRight == 0
  {
    ScoreBoard(0, 0)
  }

  /** The world the systems run on. `balls` is the Ball storage joined with the Transform
      storage, `players` the Player storage joined with the Transform storage, `scores` the
      ScoreBoard resource, and `sounds` every sound event triggered so far, in order. */
  class World {
    var balls: seq<BallEntity>
    var players: seq<PlayerEntity>
    var scores: ScoreBoard
    var sounds: seq<Sound>

    /** `CatVolleyBall::on_start`: one ball, two players and a fresh scoreboard. */
    constructor OnStart()
      ensures balls == [InitializeBall()]
      ensures players == InitializePlayers()
      ensures scores == DefaultScoreBoard()
      ensures sounds == []
    {
      balls := [InitializeBall()];
      players := InitializePlayers();
      scores := DefaultScoreBoard();
      sounds := [];
    }
  }
}
