/** One fixed-rate tick of the game: both paddles follow their keys and the
    ball moves, then the collision pass runs on the moved ball. The result
    of the engine's overlap test for each collider is an input of the tick. */
module Game {
  import opened Arena
  import opened Paddle
  import opened Kinematics
  import opened Collisions

  /** The keys the game polls: W and S drive the left paddle, the up and
      down arrows the right one. */
  datatype Keys = Keys(w: bool, s: bool, up: bool, down: bool)

  /** What the outside world supplies to one tick: the held keys and, for
      every collider in visiting order, the overlap test's result. */
  datatype Input = Input(keys: Keys, contacts: seq<Option<Collision>>)

  /** The entities that change during play. */
  datatype World = World(leftPaddle: Transform, rightPaddle: Transform, ball: Ball)

  /** The state every tick keeps: paddles on their own vertical line and
      between the walls, sizes as created, the ball's velocity of unit
      magnitude on both axes. */
  predicate Valid(w: World)
  {
    && w.leftPaddle.translation.x == PaddleLeft
    && w.rightPaddle.translation.x == PaddleRight
    && InBounds(w.leftPaddle.translation.y)
    && InBounds(w.rightPaddle.translation.y)
    && w.leftPaddle.scale == PaddleSize
    && w.rightPaddle.scale == PaddleSize
    && w.ball.transform.scale == BallSize
    && Unit(w.ball.velocity)
  }

  /** The entities as created at start-up: paddles centred vertically at
      their columns, the ball at the origin moving with velocity (1, 1). */
  function Initial(): (w: World)
    ensures Valid(w)
    ensures w.ball.velocity.x > 0.0 && w.ball.velocity.y > 0.0
  {
    World(
      Transform(Vec3(PaddleLeft, 0.0, 0.0), PaddleSize),
      Transform(Vec3(PaddleRight, 0.0, 0.0), PaddleSize),
      Ball(Transform(Vec3(0.0, 0.0, 0.0), BallSize), Vec2(1.0, 1.0)))
  }

  datatype TickResult = TickResult(world: World, events: nat)

  /** One tick. The ball's velocity changes only in the collision pass and
      only by sign; its position changes only in the movement step. */
  function Tick(w: World, input: Input): (r: TickResult)
    ensures Valid(w) ==> Valid(r.world)
    ensures r.world.leftPaddle == PaddleMovement(w.leftPaddle, input.keys.w, input.keys.s)
    ensures r.world.rightPaddle == PaddleMovement(w.rightPaddle, input.keys.up, input.keys.down)
    ensures r.world.ball
      == Pass(Ball(MoveBall(w.ball.transform, w.ball.velocity), w.ball.velocity), input.contacts).ball
    ensures r.events == CountSome(input.contacts)
    ensures r.world.ball.transform == MoveBall(w.ball.transform, w.ball.velocity)
    ensures Abs(r.world.ball.velocity.x) == Abs(w.ball.velocity.x)
    ensures Abs(r.world.ball.velocity.y) == Abs(w.ball.velocity.y)
    ensures r.events == 0 ==> r.world.ball.velocity == w.ball.velocity
  {
    var left := PaddleMovement(w.leftPaddle, input.keys.w, input.keys.s);
    var right := PaddleMovement(w.rightPaddle, input.keys.up, input.keys.down);
    var moved := Ball(MoveBall(w.ball.transform, w.ball.velocity), w.ball.velocity);
    var pass := Pass(moved, input.contacts);
    TickResult(World(left, right, pass.ball), pass.events)
  }

  /** The world after a run of ticks, with the total number of events. */
  function Run(w: World, inputs: seq<Input>): (r: TickResult)
    ensures Valid(w) ==> Valid(r.world)
    decreases |inputs|
  {
    if |inputs| == 0 then TickResult(w, 0)
    else
      var first := Tick(w, inputs[0]);
      var rest := Run(first.world, inputs[1..]);
      TickResult(rest.world, first.events + rest.events)
  }

  /** From start-up, whatever keys are held and whatever the ball touches,
      the paddles stay between the walls and the ball's velocity stays
      (±1, ±1). */
  lemma GameInvariant(inputs: seq<Input>)
    ensures var w := Run(Initial(), inputs).world;
      InBounds(w.leftPaddle.translation.y) && InBounds(w.rightPaddle.translation.y)
      && Unit(w.ball.velocity)
  {
  }
}
