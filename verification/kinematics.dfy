/** Ball movement: each tick the ball's centre advances by its velocity
    scaled by the step length. No bounds are applied here. */
module Kinematics {
  import opened Arena

  /** One tick of ball movement. Only x and y of the translation change. */
  function MoveBall(t: Transform, v: Vec2): (r: Transform)
    ensures r.translation.z == t.translation.z && r.scale == t.scale
    ensures r.translation.x - t.translation.x == v.x * StepLength()
    ensures r.translation.y - t.translation.y == v.y * StepLength()
    ensures Abs(v.x) == 1.0 && Abs(v.y) == 1.0 ==>
      Abs(r.translation.x - t.translation.x) == Speed / 60.0
      && Abs(r.translation.y - t.translation.y) == Speed / 60.0
  {
    var x := t.translation.x + v.x * TimeStep * Speed;
    var y := t.translation.y + v.y * TimeStep * Speed;
    Transform(Vec3(x, y, t.translation.z), t.scale)
  }

  /** Moving with the negated velocity undoes a move. */
  lemma MoveBallReversible(t: Transform, v: Vec2)
    ensures MoveBall(MoveBall(t, v), v.Neg()) == t
  {
  }

  /** The ball after `n` ticks in which no collision changes its velocity. */
  function MoveBallTicks(t: Transform, v: Vec2, n: nat): Transform
  {
    if n == 0 then t else MoveBall(MoveBallTicks(t, v, n - 1), v)
  }

  /** Without collisions the ball moves in a straight line: after `n` ticks
      it has travelled `n` step lengths times its velocity. */
  lemma {:induction false} MoveBallTicksStraight(t: Transform, v: Vec2, n: nat)
    ensures MoveBallTicks(t, v, n).translation
      == Vec3(t.translation.x + (n as real) * StepLength() * v.x,
              t.translation.y + (n as real) * StepLength() * v.y,
              t.translation.z)
    ensures MoveBallTicks(t, v, n).scale == t.scale
  {
    if n > 0 {
      MoveBallTicksStraight(t, v, n - 1);
    }
  }

  /** A ball launched from the origin with velocity (1, 1) is at
      (n * dt * speed, n * dt * speed) after `n` collision-free ticks. */
  lemma FromOriginDiagonal(n: nat)
    ensures var r := MoveBallTicks(Transform(Vec3(0.0, 0.0, 0.0), BallSize), Vec2(1.0, 1.0), n);
      r.translation.x == (n as real) * TimeStep * Speed
      && r.translation.y == (n as real) * TimeStep * Speed
      && r.translation.z == 0.0
  {
    MoveBallTicksStraight(Transform(Vec3(0.0, 0.0, 0.0), BallSize), Vec2(1.0, 1.0), n);
  }
}
