/** The motion system: one constant-gravity Euler step per frame for every ball. */
module MoveBalls {
  import opened CatVolleyball

  /** Downward acceleration applied to every ball. */
  const GRAVITY_ACCELERATION: real := -5.0

  /** The new state of one ball after `dt` seconds. The horizontal motion is uniform; the
      vertical displacement is the mean of the old and the new vertical velocity times `dt`,
      which is exact for constant acceleration. A zero step changes nothing, a forward step
      never makes the ball rise faster, and the radius is kept. */
  function Integrate(e: BallEntity, dt: real): (r: BallEntity)
    ensures r.ball.radius == e.ball.radius
    ensures r.ball.velocity.x == e.ball.velocity.x
    ensures r.translation.x == e.translation.x + e.ball.velocity.x * dt
    ensures r.ball.velocity.y == e.ball.velocity.y + dt * GRAVITY_ACCELERATION
    ensures r.translation.y - e.translation.y
            == (e.ball.velocity.y + r.ball.velocity.y) / 2.0 * dt
    ensures dt == 0.0 ==> r == e
    ensures dt >= 0.0 ==> r.ball.velocity.y <= e.ball.velocity.y
  {
    var v := e.ball.velocity;
    var t := e.translation;
    BallEntity(e.ball.(velocity := v.(y := v.y + dt * GRAVITY_ACCELERATION)),
               Vec2(t.x + v.x * dt, t.y + (v.y + dt * GRAVITY_ACCELERATION / 2.0) * dt))
  }

  /** The half-step velocity makes the step exact for constant gravity, so two frames of `a` and
      `b` seconds move a ball exactly as one frame of `a + b` seconds would. */
  lemma IntegrateComposes(e: BallEntity, a: real, b: real)
    ensures Integrate(Integrate(e, a), b) == Integrate(e, a + b)
  {
    var g := GRAVITY_ACCELERATION;
    var vy := e.ball.velocity.y;
    assert (vy + a * g / 2.0) * a + (vy + a * g + b * g / 2.0) * b
           == (vy + (a + b) * g / 2.0) * (a + b);
  }

  /** `MoveBallsSystem::run`: every ball is moved by one step of `dt` seconds (the frame time);
      the players, the scores and the sounds are untouched. */
  method Run(world: World, dt: real)
    modifies world
    ensures |world.balls| == |old(world.balls)|
    ensures forall k :: 0 <= k < |world.balls| ==> world.balls[k] == Integrate(old(world.balls[k]), dt)
    ensures world.players == old(world.players)
    ensures world.scores == old(world.scores)
    ensures world.sounds == old(world.sounds)
  {
    var i := 0;
    while i < |world.balls|
      invariant 0 <= i <= |world.balls| == |old(world.balls)|
      invariant forall k :: 0 <= k < i ==> world.balls[k] == Integrate(old(world.balls[k]), dt)
      invariant forall k :: i <= k < |world.balls| ==> world.balls[k] == old(world.balls[k])
      invariant world.players == old(world.players)
      invariant world.scores == old(world.scores)
      invariant world.sounds == old(world.sounds)
    {
      var ball := world.balls[i].ball;
      var local := world.balls[i].translation;
      local := local.(x := local.x + ball.velocity.x * dt);
      local := local.(y := local.y + (ball.velocity.y + dt * GRAVITY_ACCELERATION / 2.0) * dt);
      ball := ball.(velocity := ball.velocity.(y := ball.velocity.y + dt * GRAVITY_ACCELERATION));
      world.balls := world.balls[i := BallEntity(ball, local)];
      i := i + 1;
    }
  }
}
