/** The scoring system: a ball that touches the ground gives the other half's player a point
    (saturating at 999) and is served again from the middle of the arena. */
module Winner {
  import opened CatVolleyball

  /** The highest score a side can reach. */
  const MAX_SCORE: int := 999

  /** The vertical velocity a ball is served with after a point. */
  const RESET_VELOCITY_Y: real := -50.0

  /** The saturating increment of a score: one more, unless that would pass 999. */
  function Increment(score: int): (r: int)
    ensures score < MAX_SCORE ==> r == score + 1
    ensures score >= MAX_SCORE ==> r == MAX_SCORE
  {
    Min(score + 1, MAX_SCORE)
  }

  /** Both scores are in [0, 999], as they are from `ScoreBoard::default()` on. */
  predicate ScoresInRange(s: ScoreBoard) {
    0 <= s.scoreLeft <= MAX_SCORE && 0 <= s.scoreRight <= MAX_SCORE
  }

  /** The ball centre is within a radius of the ground, whatever the ball's velocity. */
  predicate TouchesGround(e: BallEntity) {
    e.translation.y <= e.ball.radius
  }

  /** The side that gets the point for a ball landing at `ballX`: the right player when the ball
      lands in the left half (the middle line included), the left player otherwise. */
  function ScoringSide(ballX: real): (side: Side)
    ensures side == Right <==> ballX <= ARENA_WIDTH / 2.0
  {
    if ballX <= ARENA_WIDTH / 2.0 then Right else Left
  }

  /** The scoreboard after a point for `side`: only that side's score changes, by the saturating
      increment, so scores in range stay in range. */
  function AwardPoint(scores: ScoreBoard, side: Side): (r: ScoreBoard)
    ensures side == Right ==> r.scoreLeft == scores.scoreLeft && r.scoreRight == Increment(scores.scoreRight)
    ensures side == Left ==> r.scoreRight == scores.scoreRight && r.scoreLeft == Increment(scores.scoreLeft)
    ensures ScoresInRange(scores) ==> ScoresInRange(r)
  {
    match side
    case Right => scores.(scoreRight := Min(scores.scoreRight + 1, MAX_SCORE))
    case Left => scores.(scoreLeft := Min(scores.scoreLeft + 1, MAX_SCORE))
  }

  /** The ball after its turn in `WinnerSystem::run`, with `r` the random number drawn for the
      serve. A ball above the ground is left as it is. A ball on the ground is put back in the
      middle of the arena with its horizontal velocity scaled by `r`, its vertical velocity -50,
      and its radius kept, whatever its state before. */
  function Served(e: BallEntity, r: real): (s: BallEntity)
    ensures !TouchesGround(e) ==> s == e
    ensures TouchesGround(e) ==>
              s.translation == Vec2(ARENA_WIDTH / 2.0, ARENA_HEIGHT / 2.0) &&
              s.ball == Ball(Vec2(r * e.ball.velocity.x, RESET_VELOCITY_Y), e.ball.radius)
  {
    if e.translation.y <= e.ball.radius then
      var v := e.ball.velocity;
      BallEntity(e.ball.(velocity := Vec2(r * v.x, -50.0)), Vec2(ARENA_WIDTH / 2.0, ARENA_HEIGHT / 2.0))
    else e
  }

  /** What one iteration of the loop over the balls does: the ball, the scores and the sounds
      triggered. */
  datatype Outcome = Outcome(entity: BallEntity, scores: ScoreBoard, sounds: seq<Sound>)

  /** One ball's turn in `WinnerSystem::run`. A ball above the ground changes nothing and
      triggers no sound. A ball on the ground scores for the side opposite its half, triggers
      exactly one score sound, and is served again. */
  function WinnerBall(e: BallEntity, scores: ScoreBoard, r: real): (o: Outcome)
    ensures o.entity == Served(e, r)
    ensures !TouchesGround(e) ==> o == Outcome(e, scores, [])
    ensures TouchesGround(e) ==>
              o.scores == AwardPoint(scores, ScoringSide(e.translation.x)) && o.sounds == [ScoreSound]
  {
    if e.translation.y <= e.ball.radius then
      Outcome(Served(e, r), AwardPoint(scores, ScoringSide(e.translation.x)), [ScoreSound])
    else Outcome(e, scores, [])
  }

  /** The serve after a point never speeds the ball up horizontally: with `r` in [-1, 1) the new
      horizontal speed is at most the old one, and a ball without horizontal speed keeps none. */
  lemma ServeSpeedBound(vx: real, r: real)
    requires -1.0 <= r < 1.0
    ensures Abs(r * vx) <= Abs(vx)
    ensures vx == 0.0 ==> r * vx == 0.0
  {
    if r >= 0.0 {
      if vx >= 0.0 {
        assert 0.0 <= r * vx <= 1.0 * vx;
      } else {
        assert 1.0 * vx <= r * vx <= 0.0;
      }
    } else {
      // r is in [-1, 0), so r * vx lies between -|vx| and |vx|
      assert (r + 1.0) * vx == r * vx + vx;
      if vx >= 0.0 {
        assert (r + 1.0) * vx >= 0.0;
        assert -1.0 * vx <= r * vx <= 0.0;
      } else {
        assert (r + 1.0) * vx <= 0.0;
        assert 0.0 <= r * vx <= -1.0 * vx;
      }
    }
  }

  /** The serve puts the ball at height 250, above any ball of radius less than 250, so a second
      turn right after a point changes nothing: one ball scores at most once over two runs. */
  lemma {:induction false} ScoresAtMostOnceInARow(e: BallEntity, scores: ScoreBoard, r1: real, r2: real)
    requires e.ball.radius < ARENA_HEIGHT / 2.0
    ensures var o1 := WinnerBall(e, scores, r1);
            var o2 := WinnerBall(o1.entity, o1.scores, r2);
            o2 == Outcome(o1.entity, o1.scores, []) && |o1.sounds + o2.sounds| <= 1
  {
    var o1 := WinnerBall(e, scores, r1);
    assert o1.entity.ball.radius == e.ball.radius;
    assert TouchesGround(e) ==> !TouchesGround(o1.entity);
    if !TouchesGround(e) {
      assert o1.entity == e;
    }
  }

  /** A ball landing in the left half: at (100, 16) with velocity (-30, -50) and
      radius 16, on a fresh scoreboard. */
  lemma LeftHalfLandingExample(r: real)
    requires -1.0 <= r < 1.0
    ensures var o := WinnerBall(BallEntity(Ball(Vec2(-30.0, -50.0), 16.0), Vec2(100.0, 16.0)),
                                DefaultScoreBoard(), r);
            o.scores == ScoreBoard(0, 1) &&
            o.entity.translation == Vec2(250.0, 250.0) &&
            o.entity.ball.velocity.y == -50.0 &&
            Abs(o.entity.ball.velocity.x) <= 30.0 &&
            o.sounds == [ScoreSound]
  {
    ServeSpeedBound(-30.0, r);
  }

  /** A side's score after `n` points from a fresh scoreboard. */
  function ScoreAfter(n: nat): int {
    if n == 0 then DefaultScoreBoard().scoreRight else Increment(ScoreAfter(n - 1))
  }

  /** `n` points give `min(n, 999)`: the score never leaves [0, 999], and once at 999 it stays
      there. */
  lemma {:induction false} ScoreAfterIsSaturated(n: nat)
    ensures ScoreAfter(n) == Min(n, MAX_SCORE)
    ensures 0 <= ScoreAfter(n) <= MAX_SCORE
  {
    if n > 0 {
      ScoreAfterIsSaturated(n - 1);
    }
  }

  /** 999 points reach 999, and a thousandth one leaves it there. */
  lemma SaturationExample()
    ensures ScoreAfter(999) == 999 && ScoreAfter(1000) == 999
  {
    ScoreAfterIsSaturated(999);
    ScoreAfterIsSaturated(1000);
  }

  /** The scoring system's effect on the scoreboard and the sounds over a whole ball storage. */
  datatype Pass = Pass(scores: ScoreBoard, sounds: seq<Sound>)

  /** The scores and the sounds after the loop over the balls, the scores carried from one ball to
      the next. `rs[k]` is the number drawn if ball `k` is served again. */
  function WinnerPass(balls: seq<BallEntity>, scores: ScoreBoard, rs: seq<real>): Pass
    requires |rs| == |balls|
    decreases |balls|
  {
    if balls == [] then Pass(scores, [])
    else
      var n := |balls| - 1;
      var prev := WinnerPass(balls[..n], scores, rs[..n]);
      var last := WinnerBall(balls[n], prev.scores, rs[n]);
      Pass(last.scores, prev.sounds + last.sounds)
  }

  /** Taking one more ball of the storage runs that ball's turn on the scores so far. */
  lemma WinnerPassStep(balls: seq<BallEntity>, scores: ScoreBoard, rs: seq<real>, i: nat)
    requires i < |rs| == |balls|
    ensures var prev := WinnerPass(balls[..i], scores, rs[..i]);
            var last := WinnerBall(balls[i], prev.scores, rs[i]);
            WinnerPass(balls[..i + 1], scores, rs[..i + 1]) == Pass(last.scores, prev.sounds + last.sounds)
  {
    assert balls[..i + 1][..i] == balls[..i] && rs[..i + 1][..i] == rs[..i];
  }

  /** The number of balls on the ground. */
  function Grounded(balls: seq<BallEntity>): nat
    decreases |balls|
  {
    if balls == [] then 0
    else Grounded(balls[..|balls| - 1]) + if TouchesGround(balls[|balls| - 1]) then 1 else 0
  }

  /** Over a whole storage: exactly one score sound per ball on the ground, the scores stay in
      range, neither score goes down, and together they rise by at most one per sound. */
  lemma {:induction false} WinnerPassEffect(balls: seq<BallEntity>, scores: ScoreBoard, rs: seq<real>)
    requires |rs| == |balls|
    requires ScoresInRange(scores)
    ensures var p := WinnerPass(balls, scores, rs);
            |p.sounds| == Grounded(balls) &&
            (forall k :: 0 <= k < |p.sounds| ==> p.sounds[k] == ScoreSound) &&
            ScoresInRange(p.scores) &&
            scores.scoreLeft <= p.scores.scoreLeft && scores.scoreRight <= p.scores.scoreRight &&
            p.scores.scoreLeft + p.scores.scoreRight <= scores.scoreLeft + scores.scoreRight + |p.sounds|
    decreases |balls|
  {
    if balls != [] {
      var n := |balls| - 1;
      WinnerPassEffect(balls[..n], scores, rs[..n]);
    }
  }

  /** `WinnerSystem::run`: every ball on the ground scores and is served again, in storage order;
      the players are untouched. `rs[k]` is the random number drawn if ball `k` is served. */
  method Run(world: World, rs: seq<real>)
    requires |rs| == |world.balls|
    requires forall k :: 0 <= k < |rs| ==> -1.0 <= rs[k] < 1.0
    modifies world
    ensures world.players == old(world.players)
    ensures |world.balls| == |old(world.balls)|
    ensures forall k :: 0 <= k < |world.balls| ==> world.balls[k] == Served(old(world.balls[k]), rs[k])
    ensures world.scores == WinnerPass(old(world.balls), old(world.scores), rs).scores
    ensures world.sounds == old(world.sounds) + WinnerPass(old(world.balls), old(world.scores), rs).sounds
  {
    ghost var balls0, scores0, sounds0 := world.balls, world.scores, world.sounds;
    var i := 0;
    while i < |world.balls|
      invariant 0 <= i <= |world.balls| == |balls0|
      invariant world.players == old(world.players)
      invariant forall k :: 0 <= k < i ==> world.balls[k] == Served(balls0[k], rs[k])
      invariant forall k :: i <= k < |world.balls| ==> world.balls[k] == balls0[k]
      invariant world.scores == WinnerPass(balls0[..i], scores0, rs[..i]).scores
      invariant world.sounds == sounds0 + WinnerPass(balls0[..i], scores0, rs[..i]).sounds
    {
      WinnerPassStep(balls0, scores0, rs, i);
      WinnerBallAt(world, i, rs[i]);
      i := i + 1;
    }
    assert balls0[..i] == balls0 && rs[..i] == rs;
  }

  /** The body of the loop over the balls in `WinnerSystem::run`, for ball `i`. */
  method WinnerBallAt(world: World, i: nat, r: real)
    requires i < |world.balls|
    modifies world
    ensures world.players == old(world.players)
    ensures var o := WinnerBall(old(world.balls[i]), old(world.scores), r);
            world.balls == old(world.balls)[i := o.entity] && world.scores == o.scores &&
            world.sounds == old(world.sounds) + o.sounds
  {
    var ball := world.balls[i].ball;
    var local := world.balls[i].translation;
    var ballX := local.x;
    var ballY := local.y;
    if ballY <= ball.radius {
      if ballX <= ARENA_WIDTH / 2.0 {
        world.scores := world.scores.(scoreRight := Min(world.scores.scoreRight + 1, 999));
      } else {
        world.scores := world.scores.(scoreLeft := Min(world.scores.scoreLeft + 1, 999));
      }
      world.sounds := world.sounds + [ScoreSound];
      local := local.(x := ARENA_WIDTH / 2.0);
      local := local.(y := ARENA_HEIGHT / 2.0);
      ball := ball.(velocity := ball.velocity.(x := r * ball.velocity.x));
      ball := ball.(velocity := ball.velocity.(y := -50.0));
      world.balls := world.balls[i := BallEntity(ball, local)];
      ghost var o := WinnerBall(old(world.balls[i]), old(world.scores), r);
      assert world.scores == o.scores;
      assert local == Vec2(ARENA_WIDTH / 2.0, ARENA_HEIGHT / 2.0);
      assert ball == Ball(Vec2(r * old(world.balls[i]).ball.velocity.x, RESET_VELOCITY_Y),
                          old(world.balls[i]).ball.radius);
      assert BallEntity(ball, local) == o.entity;
    } else {
      assert old(world.sounds) + [] == old(world.sounds);
    }
  }

  /** The ball as created, before any motion step, is above the ground: its turn changes nothing. */
  lemma InitialBallNoScore(r: real)
    ensures WinnerBall(InitializeBall(), DefaultScoreBoard(), r) ==
            Outcome(InitializeBall(), DefaultScoreBoard(), [])
  {
  }
}
