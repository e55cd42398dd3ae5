/** Arena geometry of the Pong clone: vectors, transforms, the compile-time
    constants of the game and the four walls that enclose the playing field.
    Coordinates are exact reals; the program itself uses 32-bit floats. */
module Arena {

  /** A 2-D vector (the engine's `Vec2`). */
  datatype Vec2 = Vec2(x: real, y: real) {
    /** Component-wise negation. */
    function Neg(): Vec2 { Vec2(-x, -y) }
    /** The vector with its components swapped. */
    function Transpose(): Vec2 { Vec2(y, x) }
  }

  /** A 3-D vector (the engine's `Vec3`). */
  datatype Vec3 = Vec3(x: real, y: real, z: real) {
    /** Drops the z component. */
    function Truncate(): Vec2 { Vec2(x, y) }
  }

  /** The part of an entity's transform the game reads and writes: its centre
      and its scale, which doubles as the size of its box. */
  datatype Transform = Transform(translation: Vec3, scale: Vec3)

  function Abs(r: real): real { if r < 0.0 then -r else r }

  const WindowWidth: real := 750.0
  const WindowHeight: real := 450.0
  /** Duration of one fixed simulation step, in seconds. */
  const TimeStep: real := 1.0 / 60.0
  const Gap: real := 30.0

  const WallThickness: real := 10.0
  const LeftWall: real := -((WindowWidth / 2.0) - Gap)
  const RightWall: real := (WindowWidth / 2.0) - Gap
  const TopWall: real := (WindowHeight / 2.0) - Gap
  const BottomWall: real := -((WindowHeight / 2.0) - Gap)

  const PaddleSize: Vec3 := Vec3(10.0, 100.0, 0.0)
  const PaddleLeft: real := LeftWall + Gap
  const PaddleRight: real := RightWall - Gap

  const BallSize: Vec3 := Vec3(10.0, 10.0, 0.0)

  /** Units per second travelled along each axis by the ball and the paddles. */
  const Speed: real := 200.0

  /** Distance covered along one axis in one step at unit velocity. */
  function StepLength(): (d: real)
    ensures d == Speed / 60.0
    ensures d * 60.0 == Speed
  {
    TimeStep * Speed
  }

  datatype WallLocation = Left | Right | Top | Bottom {
    predicate Vertical() { this == Left || this == Right }

    /** The wall facing this one across the arena. */
    function Opposite(): (o: WallLocation)
      ensures o != this && o.Vertical() == Vertical()
    {
      match this
      case Left => Right
      case Right => Left
      case Top => Bottom
      case Bottom => Top
    }
  }

  function ArenaWidth(): real { RightWall - LeftWall }
  function ArenaHeight(): real { TopWall - BottomWall }

  /** Centre of a wall: the vertical walls sit on the x axis and the
      horizontal ones on the y axis, each `Gap` inside the window edge. */
  function Position(w: WallLocation): (p: Vec2)
    ensures w.Vertical() ==> p.y == 0.0 && Abs(p.x) == WindowWidth / 2.0 - Gap
    ensures !w.Vertical() ==> p.x == 0.0 && Abs(p.y) == WindowHeight / 2.0 - Gap
    ensures p.x < 0.0 <==> w == Left
    ensures p.y < 0.0 <==> w == Bottom
  {
    match w
    case Left => Vec2(LeftWall, 0.0)
    case Right => Vec2(RightWall, 0.0)
    case Top => Vec2(0.0, TopWall)
    case Bottom => Vec2(0.0, BottomWall)
  }

  /** Extent of a wall: `WallThickness` across, and the distance between the
      opposite walls plus one thickness along. */
  function Size(w: WallLocation): (s: Vec2)
    ensures w.Vertical() ==> s.x == WallThickness && s.y == Position(Top).y - Position(Bottom).y + WallThickness
    ensures !w.Vertical() ==> s.y == WallThickness && s.x == Position(Right).x - Position(Left).x + WallThickness
  {
    var arenaWidth := ArenaWidth();
    var arenaHeight := ArenaHeight();
    match w
    case Left | Right => Vec2(WallThickness, arenaHeight + WallThickness)
    case Top | Bottom => Vec2(arenaWidth + WallThickness, WallThickness)
  }

  /** Opposite walls are mirror images through the origin and have equal size. */
  lemma WallsMirrorSymmetric(w: WallLocation)
    ensures Position(w.Opposite()) == Position(w).Neg()
    ensures Size(w.Opposite()) == Size(w)
  {
  }

  /** A horizontal wall is a vertical one turned by a quarter turn, with the
      arena width in place of the arena height. */
  lemma HorizontalIsTransposedVertical()
    ensures Size(Top).Transpose() == Vec2(Size(Left).x, Size(Left).y + ArenaWidth() - ArenaHeight())
  {
  }

  /** The walls close the arena: at each corner the outer edges of the
      vertical and the horizontal wall meet exactly, leaving no gap. */
  lemma CornersClosed(v: WallLocation, h: WallLocation)
    requires v.Vertical() && !h.Vertical()
    ensures Abs(Position(v).x) + Size(v).x / 2.0 == Abs(Position(h).x) + Size(h).x / 2.0
    ensures Abs(Position(v).y) + Size(v).y / 2.0 == Abs(Position(h).y) + Size(h).y / 2.0
  {
  }
}
