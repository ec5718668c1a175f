/** The collision system: every ball bounces off at most one arena wall and off the paddles. */
module Bounce {
  import opened CatVolleyball

  datatype Wall = BottomWall | TopWall | LeftWall | RightWall

  /** The condition of a wall's branch: the ball's centre is within a radius of that wall and its
      velocity points toward it. */
  predicate Touching(w: Wall, pos: Vec2, vel: Vec2, radius: real) {
    match w
    case BottomWall => pos.y <= radius && vel.y < 0.0
    case TopWall => pos.y >= ARENA_HEIGHT - radius && vel.y > 0.0
    case LeftWall => pos.x <= radius && vel.x < 0.0
    case RightWall => pos.x >= ARENA_WIDTH - radius && vel.x > 0.0
  }

  /** The order in which the wall branches are tried. */
  function Priority(w: Wall): nat {
    match w
    case BottomWall => 0
    case TopWall => 1
    case LeftWall => 2
    case RightWall => 3
  }

  /** The wall the `else if` chain bounces the ball off, if any: the first touching wall in the
      order bottom, top, left, right. */
  function WallHit(pos: Vec2, vel: Vec2, radius: real): (hit: Option<Wall>)
    ensures hit.Some? ==> Touching(hit.value, pos, vel, radius)
    ensures hit.None? ==> forall w: Wall :: !Touching(w, pos, vel, radius)
    ensures hit.Some? ==>
              forall w: Wall :: Priority(w) < Priority(hit.value) ==> !Touching(w, pos, vel, radius)
  {
    if pos.y <= radius && vel.y < 0.0 then Some(BottomWall)
    else if pos.y >= ARENA_HEIGHT - radius && vel.y > 0.0 then Some(TopWall)
    else if pos.x <= radius && vel.x < 0.0 then Some(LeftWall)
    else if pos.x >= ARENA_WIDTH - radius && vel.x > 0.0 then Some(RightWall)
    else None
  }

  /** The velocity after the wall chain. A bounce negates exactly one component (y for the bottom
      and top walls, x for the side walls), keeps the other, and leaves the ball moving away from
      the wall it hit. */
  function WallBounce(pos: Vec2, vel: Vec2, radius: real): (r: Vec2)
    ensures WallHit(pos, vel, radius).None? ==> r == vel
    ensures WallHit(pos, vel, radius) in {Some(BottomWall), Some(TopWall)} ==>
              r.x == vel.x && r.y == -vel.y
    ensures WallHit(pos, vel, radius) in {Some(LeftWall), Some(RightWall)} ==>
              r.x == -vel.x && r.y == vel.y
    ensures WallHit(pos, vel, radius).Some? ==>
              !Touching(WallHit(pos, vel, radius).value, pos, r, radius)
  {
    match WallHit(pos, vel, radius)
    case None => vel
    case Some(BottomWall) => vel.(y := -vel.y)
    case Some(TopWall) => vel.(y := -vel.y)
    case Some(LeftWall) => vel.(x := -vel.x)
    case Some(RightWall) => vel.(x := -vel.x)
  }

  /** `point_in_rect`: the point lies between `left` and `right` and below both `top` and
      `bottom`. There is no lower bound on y. */
  function PointInRect(x: real, y: real, left: real, right: real, top: real, bottom: real): (inside: bool)
    ensures inside <==> left <= x <= right && y <= (if top <= bottom then top else bottom)
  {
    x >= left && x <= right && y <= bottom && y <= top
  }

  /** The four bounds the collision system passes to `point_in_rect` for one paddle, exactly as
      the code computes them from the paddle's transform and the ball's radius. */
  datatype Rect = Rect(left: real, right: real, top: real, bottom: real)

  /** The hit rectangle of a paddle for a ball of the given radius. Its x extent is twice the
      radius wide whatever the paddle's width, it starts a radius to the left of the paddle's left
      edge, its `top` is computed from x (paddle width above `right`), and its `bottom` is the
      paddle's top surface. */
  function HitRect(p: PlayerEntity, radius: real): (r: Rect)
    ensures r.left == p.translation.x - p.player.width / 2.0 - radius
    ensures r.right - r.left == 2.0 * radius
    ensures r.top == r.right + p.player.width
    ensures r.bottom == p.translation.y + p.player.height
  {
    var playerX := p.translation.x - p.player.width * 0.5;
    var playerY := p.translation.y + p.player.height;
    Rect(playerX - radius, playerX + radius, playerX + p.player.width + radius, playerY)
  }

  /** Whether a ball centred at `pos` is inside a paddle's hit rectangle. */
  predicate HitsPaddle(pos: Vec2, radius: real, p: PlayerEntity) {
    var r := HitRect(p, radius);
    PointInRect(pos.x, pos.y, r.left, r.right, r.top, r.bottom)
  }

  /** The random factor a paddle bounce multiplies the horizontal speed by. */
  predicate DeflectionFactor(f: real) {
    0.6 <= f < 3.0
  }

  predicate DeflectionFactors(fs: seq<real>) {
    forall k :: 0 <= k < |fs| ==> DeflectionFactor(fs[k])
  }

  /** The horizontal velocity a paddle gives the ball: the old horizontal speed times the random
      factor, toward negative x. With a factor in [0.6, 3) the new speed is between 0.6 and 3
      times the old one, strictly below 3 times unless the old speed is zero. */
  function Deflect(vx: real, factor: real): (r: real)
    ensures DeflectionFactor(factor) ==>
              r <= 0.0 && 0.6 * Abs(vx) <= -r <= 3.0 * Abs(vx) && (vx != 0.0 ==> -r < 3.0 * Abs(vx))
  {
    var a := Abs(vx);
    assert DeflectionFactor(factor) ==> a * 0.6 <= a * factor <= a * 3.0;
    -a * factor
  }

  /** One iteration of the loop over the players: the new velocity and the sounds triggered. A
      falling ball inside the hit rectangle goes up at the speed it fell and is sent toward
      negative x at its old horizontal speed times `factor`; otherwise nothing happens. */
  function PaddleBounce(pos: Vec2, radius: real, vel: Vec2, p: PlayerEntity, factor: real): (r: (Vec2, seq<Sound>))
    ensures r.1 == [] || r.1 == [BounceSound]
    ensures r.1 == [BounceSound] <==> HitsPaddle(pos, radius, p) && vel.y < 0.0
    ensures r.1 == [] ==> r.0 == vel
    ensures r.1 == [BounceSound] ==> r.0 == Vec2(Deflect(vel.x, factor), -vel.y) && r.0.y > 0.0
  {
    if HitsPaddle(pos, radius, p) then
      if vel.y < 0.0 then
        // both arms of the source's match on the side compute the same velocity
        match p.player.side
        case Left => (Vec2(Deflect(vel.x, factor), -vel.y), [BounceSound])
        case Right => (Vec2(Deflect(vel.x, factor), -vel.y), [BounceSound])
      else (vel, [])
    else (vel, [])
  }

  /** The velocity and the sounds after the first `k` iterations of the loop over the players. */
  function PaddlePass(pos: Vec2, radius: real, vel: Vec2, players: seq<PlayerEntity>, factors: seq<real>, k: nat): (r: (Vec2, seq<Sound>))
    requires k <= |players| == |factors|
    decreases k
  {
    if k == 0 then (vel, [])
    else
      var prev := PaddlePass(pos, radius, vel, players, factors, k - 1);
      var step := PaddleBounce(pos, radius, prev.0, players[k - 1], factors[k - 1]);
      (step.0, prev.1 + step.1)
  }

  /** A ball that is not falling is left alone by every paddle. */
  lemma {:induction false} PaddlePassNotFalling(pos: Vec2, radius: real, vel: Vec2, players: seq<PlayerEntity>, factors: seq<real>, k: nat)
    requires k <= |players| == |factors|
    requires vel.y >= 0.0
    ensures PaddlePass(pos, radius, vel, players, factors, k) == (vel, [])
  {
    if k > 0 {
      PaddlePassNotFalling(pos, radius, vel, players, factors, k - 1);
      var step := PaddleBounce(pos, radius, vel, players[k - 1], factors[k - 1]);
      assert step.0 == vel && |step.1| == 0;
      var empty: seq<Sound> := [];
      assert PaddlePass(pos, radius, vel, players, factors, k).1 == empty + empty == empty;
    }
  }

  /** At most one paddle bounces the ball per call. With no bounce the velocity is unchanged;
      after one the ball rises at the speed it fell and moves toward negative x (or stays at
      x speed 0) at between 0.6 and 3 times its old horizontal speed. */
  lemma {:induction false} PaddlePassAtMostOnce(pos: Vec2, radius: real, vel: Vec2, players: seq<PlayerEntity>, factors: seq<real>, k: nat)
    requires k <= |players| == |factors|
    requires DeflectionFactors(factors)
    ensures var r := PaddlePass(pos, radius, vel, players, factors, k);
            (r.1 == [] && r.0 == vel) ||
            (r.1 == [BounceSound] && vel.y < 0.0 && r.0.y == -vel.y &&
             0.6 * Abs(vel.x) <= -r.0.x <= 3.0 * Abs(vel.x) && (vel.x != 0.0 ==> -r.0.x < 3.0 * Abs(vel.x)))
  {
    if k > 0 {
      PaddlePassAtMostOnce(pos, radius, vel, players, factors, k - 1);
      var prev := PaddlePass(pos, radius, vel, players, factors, k - 1);
      var step := PaddleBounce(pos, radius, prev.0, players[k - 1], factors[k - 1]);
      assert PaddlePass(pos, radius, vel, players, factors, k) == (step.0, prev.1 + step.1);
      if prev.1 == [] {
        if step.1 == [BounceSound] {
          assert DeflectionFactor(factors[k - 1]);
          assert prev.1 + step.1 == [BounceSound];
        } else {
          assert prev.1 + step.1 == [];
        }
      } else {
        // the earlier bounce left the ball rising, which fails the falling guard
        assert step.1 == [];
        assert prev.1 + step.1 == prev.1;
      }
    }
  }

  /** What one iteration of the loop over the balls does to one ball: the wall chain, then the
      paddles in storage order. */
  function BounceBall(e: BallEntity, players: seq<PlayerEntity>, factors: seq<real>): (r: (BallEntity, seq<Sound>))
    requires |factors| == |players|
    ensures r.0.translation == e.translation
    ensures r.0.ball.radius == e.ball.radius
  {
    var pos := e.translation;
    var radius := e.ball.radius;
    var afterWall := WallBounce(pos, e.ball.velocity, radius);
    var wallSounds := if WallHit(pos, e.ball.velocity, radius).Some? then [BounceSound] else [];
    var afterPaddles := PaddlePass(pos, radius, afterWall, players, factors, |players|);
    (e.(ball := e.ball.(velocity := afterPaddles.0)), wallSounds + afterPaddles.1)
  }

  /** Per ball: at most two bounce sounds, one for a wall and one for a paddle; a bounce off the
      bottom wall leaves the ball rising, so no paddle bounces it in the same call. */
  lemma BounceBallSounds(e: BallEntity, players: seq<PlayerEntity>, factors: seq<real>)
    requires |factors| == |players| && DeflectionFactors(factors)
    ensures var r := BounceBall(e, players, factors);
            |r.1| <= 2 && (forall k :: 0 <= k < |r.1| ==> r.1[k] == BounceSound) &&
            (WallHit(e.translation, e.ball.velocity, e.ball.radius).None? ==> |r.1| <= 1)
    ensures WallHit(e.translation, e.ball.velocity, e.ball.radius) == Some(BottomWall) ==>
              BounceBall(e, players, factors) ==
              (e.(ball := e.ball.(velocity := e.ball.velocity.(y := -e.ball.velocity.y))), [BounceSound])
  {
    var pos, radius := e.translation, e.ball.radius;
    var afterWall := WallBounce(pos, e.ball.velocity, radius);
    PaddlePassAtMostOnce(pos, radius, afterWall, players, factors, |players|);
    if WallHit(pos, e.ball.velocity, radius) == Some(BottomWall) {
      PaddlePassNotFalling(pos, radius, afterWall, players, factors, |players|);
      assert [BounceSound] + [] == [BounceSound];
    }
  }

  /** Which paddle rectangles the two configured paddles present to a ball of the configured
      radius: a ball is "on" a paddle standing at `t` exactly when its centre is at most 32 to the
      left of the paddle's centre and not to its right, and its y is at most the lesser of
      `t.x + 32` and `t.y + 32`. */
  lemma ConfiguredPaddleHit(pos: Vec2, side: Side, t: Vec2)
    ensures HitsPaddle(pos, BALL_RADIUS, PlayerEntity(NewPlayer(side), t)) <==>
              t.x - 32.0 <= pos.x <= t.x && pos.y <= t.x + 32.0 && pos.y <= t.y + 32.0
  {
  }

  /** The sounds the bounce system triggers over a whole ball storage, in order. */
  function BounceSounds(balls: seq<BallEntity>, players: seq<PlayerEntity>, factors: seq<seq<real>>): seq<Sound>
    requires |factors| == |balls|
    requires forall k :: 0 <= k < |factors| ==> |factors[k]| == |players|
    decreases |balls|
  {
    if balls == [] then []
    else
      var n := |balls| - 1;
      BounceSounds(balls[..n], players, factors[..n]) + BounceBall(balls[n], players, factors[n]).1
  }

  /** Taking one more ball of the storage appends that ball's sounds. */
  lemma BounceSoundsStep(balls: seq<BallEntity>, players: seq<PlayerEntity>, factors: seq<seq<real>>, i: nat)
    requires i < |factors| == |balls|
    requires forall k :: 0 <= k < |factors| ==> |factors[k]| == |players|
    ensures BounceSounds(balls[..i + 1], players, factors[..i + 1]) ==
            BounceSounds(balls[..i], players, factors[..i]) + BounceBall(balls[i], players, factors[i]).1
  {
    assert balls[..i + 1][..i] == balls[..i] && factors[..i + 1][..i] == factors[..i];
  }

  /** Over a whole storage there are at most two bounce sounds per ball, and no other sound. */
  lemma {:induction false} BounceSoundsBound(balls: seq<BallEntity>, players: seq<PlayerEntity>, factors: seq<seq<real>>)
    requires |factors| == |balls|
    requires forall k :: 0 <= k < |factors| ==> |factors[k]| == |players| && DeflectionFactors(factors[k])
    ensures var r := BounceSounds(balls, players, factors);
            |r| <= 2 * |balls| && (forall k :: 0 <= k < |r| ==> r[k] == BounceSound)
    decreases |balls|
  {
    if balls != [] {
      var n := |balls| - 1;
      BounceSoundsBound(balls[..n], players, factors[..n]);
      BounceBallSounds(balls[n], players, factors[n]);
    }
  }

  /** `BounceSystem::run`: the wall chain and the paddle loop for every ball, changing only the
      balls' velocities and appending the bounce sounds. `factors[i][j]` is the random number
      drawn if paddle `j` bounces ball `i`. */
  method Run(world: World, factors: seq<seq<real>>)
    requires |factors| == |world.balls|
    requires forall k :: 0 <= k < |factors| ==>
               |factors[k]| == |world.players| && DeflectionFactors(factors[k])
    modifies world
    ensures world.players == old(world.players)
    ensures world.scores == old(world.scores)
    ensures |world.balls| == |old(world.balls)|
    ensures forall k :: 0 <= k < |world.balls| ==>
              world.balls[k] == BounceBall(old(world.balls[k]), world.players, factors[k]).0
    ensures world.sounds == old(world.sounds) + BounceSounds(old(world.balls), world.players, factors)
  {
    ghost var balls0, sounds0 := world.balls, world.sounds;
    var i := 0;
    while i < |world.balls|
      invariant 0 <= i <= |world.balls| == |balls0|
      invariant world.players == old(world.players) && world.scores == old(world.scores)
      invariant forall k :: 0 <= k < i ==> world.balls[k] == BounceBall(balls0[k], world.players, factors[k]).0
      invariant forall k :: i <= k < |world.balls| ==> world.balls[k] == balls0[k]
      invariant world.sounds == sounds0 + BounceSounds(balls0[..i], world.players, factors[..i])
    {
      BounceBallAt(world, i, factors[i]);
      BounceSoundsStep(balls0, world.players, factors, i);
      i := i + 1;
    }
    assert balls0[..i] == balls0 && factors[..i] == factors;
  }

  /** The body of the loop over the balls in `BounceSystem::run`, for ball `i`: the wall chain,
      then the loop over the players, on the ball's position as it was read at the start. */
  method BounceBallAt(world: World, i: nat, fs: seq<real>)
    requires i < |world.balls| && |fs| == |world.players|
    modifies world
    ensures world.players == old(world.players) && world.scores == old(world.scores)
    ensures world.balls == old(world.balls)[i := BounceBall(old(world.balls[i]), world.players, fs).0]
    ensures world.sounds == old(world.sounds) + BounceBall(old(world.balls[i]), world.players, fs).1
  {
    var ball := world.balls[i].ball;
    var ballX := world.balls[i].translation.x;
    var ballY := world.balls[i].translation.y;
    ball := BounceOffWalls(world, ball, ballX, ballY);
    ball := BounceOffPlayers(world, ball, ballX, ballY, fs);
    world.balls := world.balls[i := world.balls[i].(ball := ball)];
  }

  /** The `else if` chain of `BounceSystem::run` over the four arena walls. */
  method BounceOffWalls(world: World, ball: Ball, ballX: real, ballY: real) returns (b: Ball)
    modifies world`sounds
    ensures b == ball.(velocity := WallBounce(Vec2(ballX, ballY), ball.velocity, ball.radius))
    ensures world.sounds == old(world.sounds) +
              if WallHit(Vec2(ballX, ballY), ball.velocity, ball.radius).Some? then [BounceSound] else []
  {
    b := ball;
    if ballY <= b.radius && b.velocity.y < 0.0 {
      b := b.(velocity := b.velocity.(y := -b.velocity.y));
      world.sounds := world.sounds + [BounceSound];
    } else if ballY >= ARENA_HEIGHT - b.radius && b.velocity.y > 0.0 {
      b := b.(velocity := b.velocity.(y := -b.velocity.y));
      world.sounds := world.sounds + [BounceSound];
    } else if ballX <= b.radius && b.velocity.x < 0.0 {
      b := b.(velocity := b.velocity.(x := -b.velocity.x));
      world.sounds := world.sounds + [BounceSound];
    } else if ballX >= ARENA_WIDTH - b.radius && b.velocity.x > 0.0 {
      b := b.(velocity := b.velocity.(x := -b.velocity.x));
      world.sounds := world.sounds + [BounceSound];
    }
  }

  /** The loop over the players of `BounceSystem::run`: it tests every paddle in storage order and
      deflects a falling ball off the first one whose hit rectangle holds its centre. */
  method BounceOffPlayers(world: World, ball: Ball, ballX: real, ballY: real, fs: seq<real>) returns (b: Ball)
    requires |fs| == |world.players|
    modifies world`sounds
    ensures b == ball.(velocity := PaddlePass(Vec2(ballX, ballY), ball.radius, ball.velocity, world.players, fs, |fs|).0)
    ensures world.sounds == old(world.sounds) +
              PaddlePass(Vec2(ballX, ballY), ball.radius, ball.velocity, world.players, fs, |fs|).1
  {
    b := ball;
    var j := 0;
    while j < |world.players|
      invariant 0 <= j <= |world.players|
      invariant b == ball.(velocity := PaddlePass(Vec2(ballX, ballY), ball.radius, ball.velocity, world.players, fs, j).0)
      invariant world.sounds == old(world.sounds) +
                  PaddlePass(Vec2(ballX, ballY), ball.radius, ball.velocity, world.players, fs, j).1
    {
      var player := world.players[j].player;
      var playerX := world.players[j].translation.x - player.width * 0.5;
      var playerY := world.players[j].translation.y + player.height;
      if PointInRect(ballX, ballY, playerX - b.radius, playerX + b.radius,
                     playerX + player.width + b.radius, playerY) {
        if b.velocity.y < 0.0 {
          b := b.(velocity := b.velocity.(y := -b.velocity.y));
          match player.side {
            case Left =>
              b := b.(velocity := b.velocity.(x := Deflect(b.velocity.x, fs[j])));
              world.sounds := world.sounds + [BounceSound];
            case Right =>
              b := b.(velocity := b.velocity.(x := Deflect(b.velocity.x, fs[j])));
              world.sounds := world.sounds + [BounceSound];
          }
        }
      }
      j := j + 1;
    }
  }

  /** A ball inside no paddle's hit rectangle is not deflected. */
  lemma {:induction false} PaddlePassNoHit(pos: Vec2, radius: real, vel: Vec2, players: seq<PlayerEntity>, factors: seq<real>, k: nat)
    requires k <= |players| == |factors|
    requires forall m :: 0 <= m < k ==> !HitsPaddle(pos, radius, players[m])
    ensures PaddlePass(pos, radius, vel, players, factors, k).0 == vel
    ensures |PaddlePass(pos, radius, vel, players, factors, k).1| == 0
  {
    if k > 0 {
      PaddlePassNoHit(pos, radius, vel, players, factors, k - 1);
    }
  }

  /** The converse of the lemmas above: a falling ball is bounced by the first paddle, in storage
      order, whose hit rectangle holds its centre, with that paddle's factor, and by no other. */
  lemma {:induction false} PaddlePassFirstHit(pos: Vec2, radius: real, vel: Vec2, players: seq<PlayerEntity>, factors: seq<real>, k: nat, j: nat)
    requires k <= |players| == |factors|
    requires vel.y < 0.0
    requires j < k
    requires HitsPaddle(pos, radius, players[j])
    requires forall m :: 0 <= m < j ==> !HitsPaddle(pos, radius, players[m])
    ensures PaddlePass(pos, radius, vel, players, factors, k) == (Vec2(Deflect(vel.x, factors[j]), -vel.y), [BounceSound])
  {
    var prev := PaddlePass(pos, radius, vel, players, factors, k - 1);
    var step := PaddleBounce(pos, radius, prev.0, players[k - 1], factors[k - 1]);
    if k - 1 == j {
      PaddlePassNoHit(pos, radius, vel, players, factors, j);
      assert prev.1 == [];
      assert prev.1 + step.1 == [BounceSound];
    } else {
      PaddlePassFirstHit(pos, radius, vel, players, factors, k - 1, j);
      assert prev.0.y > 0.0;
      assert step == (prev.0, []);
      assert prev.1 + step.1 == prev.1;
    }
  }

  /** Neither paddle, where the game places it, reaches a ball centred at (250, y). */
  lemma MiddleMissesInitialPaddles(y: real, radius: real, ps: seq<PlayerEntity>)
    requires radius == BALL_RADIUS && ps == InitializePlayers()
    ensures forall m :: 0 <= m < |ps| ==> !HitsPaddle(Vec2(250.0, y), radius, ps[m])
  {
    forall m | 0 <= m < |ps| ensures !HitsPaddle(Vec2(250.0, y), radius, ps[m]) {
      if m == 0 {
        assert HitRect(ps[0], radius).right == 16.0;
      } else {
        assert HitRect(ps[1], radius).left == 452.0;
      }
    }
  }

  /** A ball at the top wall: position (250, 500), velocity (60, 40), radius 16,
      with the two paddles where the game places them. */
  lemma TopWallExample(factors: seq<real>)
    requires |factors| == 2
    ensures BounceBall(BallEntity(Ball(Vec2(60.0, 40.0), 16.0), Vec2(250.0, 500.0)),
                       InitializePlayers(), factors) ==
            (BallEntity(Ball(Vec2(60.0, -40.0), 16.0), Vec2(250.0, 500.0)), [BounceSound])
  {
    var ps := InitializePlayers();
    MiddleMissesInitialPaddles(500.0, 16.0, ps);
    PaddlePassNoHit(Vec2(250.0, 500.0), 16.0, Vec2(60.0, -40.0), ps, factors, |ps|);
    var r := PaddlePass(Vec2(250.0, 500.0), 16.0, Vec2(60.0, -40.0), ps, factors, |ps|);
    assert [BounceSound] + r.1 == [BounceSound];
  }

  /** The ball as created, before any motion step, bounces off no wall and no paddle. */
  lemma InitialBallNoBounce(factors: seq<real>)
    requires |factors| == 2
    ensures BounceBall(InitializeBall(), InitializePlayers(), factors) == (InitializeBall(), [])
  {
    var e := InitializeBall();
    var ps := InitializePlayers();
    MiddleMissesInitialPaddles(250.0, 16.0, ps);
    PaddlePassNoHit(e.translation, 16.0, e.ball.velocity, ps, factors, |ps|);
  }
}
