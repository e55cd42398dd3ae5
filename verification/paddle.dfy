/** Paddle input handling: two held keys give a direction, the paddle moves
    along y by one step in that direction and is kept between the walls. */
module Paddle {
  import opened Arena

  /** Net direction of travel: a held up key adds one, a held down key
      subtracts one, so holding both cancels out. */
  function Direction(up: bool, down: bool): (d: real)
    ensures d == 1.0 <==> up && !down
    ensures d == -1.0 <==> down && !up
    ensures d == 0.0 <==> up == down
    ensures d == 1.0 || d == -1.0 || d == 0.0
  {
    (if up then 1.0 else 0.0) - (if down then 1.0 else 0.0)
  }

  /** Highest centre the paddle may take: its top edge then touches the
      inner face of the top wall. */
  function TopBound(): (b: real)
    ensures b + PaddleSize.y / 2.0 == Position(Top).y - Size(Top).y / 2.0
    ensures b == 140.0
  {
    TopWall - WallThickness / 2.0 - PaddleSize.y / 2.0
  }

  /** Lowest centre the paddle may take: its bottom edge then touches the
      inner face of the bottom wall. */
  function BottomBound(): (b: real)
    ensures b - PaddleSize.y / 2.0 == Position(Bottom).y + Size(Bottom).y / 2.0
    ensures b == -TopBound()
  {
    BottomWall + WallThickness / 2.0 + PaddleSize.y / 2.0
  }

  /** Restricts `v` to `[lo, hi]`; the program's float clamp refuses
      bounds given in the wrong order. */
  function Clamp(v: real, lo: real, hi: real): (r: real)
    requires lo <= hi
    ensures lo <= r <= hi
    ensures lo <= v <= hi ==> r == v
    ensures v < lo ==> r == lo
    ensures v > hi ==> r == hi
  {
    if v < lo then lo else if v > hi then hi else v
  }

  predicate InBounds(y: real) { BottomBound() <= y <= TopBound() }

  /** One step of paddle movement with the given keys held. Only the y
      coordinate of the translation is written. */
  function PaddleMovement(t: Transform, up: bool, down: bool): (r: Transform)
    ensures InBounds(r.translation.y)
    ensures r.translation.x == t.translation.x && r.translation.z == t.translation.z
    ensures r.scale == t.scale
    ensures InBounds(t.translation.y + Direction(up, down) * StepLength())
      ==> r.translation.y == t.translation.y + Direction(up, down) * StepLength()
    ensures InBounds(t.translation.y)
      ==> Abs(r.translation.y - t.translation.y) <= StepLength()
    ensures up == down && InBounds(t.translation.y) ==> r == t
    ensures t.translation.y + Direction(up, down) * StepLength() > TopBound()
      ==> r.translation.y == TopBound()
    ensures t.translation.y + Direction(up, down) * StepLength() < BottomBound()
      ==> r.translation.y == BottomBound()
    ensures up && !down ==> r.translation.y >= t.translation.y || r.translation.y == TopBound()
    ensures down && !up ==> r.translation.y <= t.translation.y || r.translation.y == BottomBound()
  {
    var position := Direction(up, down);
    var newTranslation := t.translation.y + position * Speed * TimeStep;
    var y := Clamp(newTranslation, BottomBound(), TopBound());
    Transform(Vec3(t.translation.x, y, t.translation.z), t.scale)
  }

  /** The paddle after `n` steps with only the up key held. */
  function HoldUp(t: Transform, n: nat): Transform
  {
    if n == 0 then t else PaddleMovement(HoldUp(t, n - 1), true, false)
  }

  /** The paddle after `n` steps with only the down key held. */
  function HoldDown(t: Transform, n: nat): Transform
  {
    if n == 0 then t else PaddleMovement(HoldDown(t, n - 1), false, true)
  }

  function Min(a: real, b: real): real { if a <= b then a else b }
  function Max(a: real, b: real): real { if a >= b then a else b }

  /** Holding the up key climbs one step per tick until the paddle reaches
      the top bound, where it stays. */
  lemma {:induction false} HoldUpReachesTop(t: Transform, n: nat)
    requires InBounds(t.translation.y)
    ensures HoldUp(t, n).translation.y == Min(t.translation.y + (n as real) * StepLength(), TopBound())
    ensures HoldUp(t, n).translation.x == t.translation.x
  {
    if n > 0 {
      HoldUpReachesTop(t, n - 1);
      var prev := HoldUp(t, n - 1).translation.y;
      assert prev + StepLength() == t.translation.y + (n as real) * StepLength()
        || prev == TopBound();
    }
  }

  /** Holding the down key descends one step per tick until the paddle
      reaches the bottom bound, where it stays. */
  lemma {:induction false} HoldDownReachesBottom(t: Transform, n: nat)
    requires InBounds(t.translation.y)
    ensures HoldDown(t, n).translation.y == Max(t.translation.y - (n as real) * StepLength(), BottomBound())
    ensures HoldDown(t, n).translation.x == t.translation.x
  {
    if n > 0 {
      HoldDownReachesBottom(t, n - 1);
      var prev := HoldDown(t, n - 1).translation.y;
      assert prev - StepLength() == t.translation.y - (n as real) * StepLength()
        || prev == BottomBound();
    }
  }
}
