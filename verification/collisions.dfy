/** Collision resolution: the side on which the ball touches a collider
    decides whether one velocity component is negated, and one pass folds
    that rule over the results for every collider, counting the contacts.
    Which side is touched comes from the engine's box-overlap test, whose
    results are an input here. */
module Collisions {
  import opened Arena

  datatype Option<T> = None | Some(value: T)

  /** The side reported by the box-overlap test, or `Inside`. */
  datatype Collision = Left | Right | Top | Bottom | Inside {
    /** A side that acts on the x component. */
    predicate XSide() { Left? || Right? }
    /** A side that acts on the y component. */
    predicate YSide() { Top? || Bottom? }
  }

  /** The ball: its transform (centre and size) and its velocity, whose
      components are signs that the step length scales. */
  datatype Ball = Ball(transform: Transform, velocity: Vec2)

  /** A velocity of unit magnitude on both axes. */
  predicate Unit(v: Vec2) { Abs(v.x) == 1.0 && Abs(v.y) == 1.0 }

  /** Velocity after one contact on side `c`. A left or right contact
      turns the x component away from the collider, a top or bottom contact
      the y component; a component already pointing away is kept. */
  function Reflect(c: Collision, v: Vec2): (r: Vec2)
    ensures Abs(r.x) == Abs(v.x) && Abs(r.y) == Abs(v.y)
    ensures r.x == v.x || r.y == v.y
    ensures c.Left? ==> r.y == v.y && r.x <= 0.0 && (r.x != v.x <==> v.x > 0.0)
    ensures c.Right? ==> r.y == v.y && r.x >= 0.0 && (r.x != v.x <==> v.x < 0.0)
    ensures c.Top? ==> r.x == v.x && r.y >= 0.0 && (r.y != v.y <==> v.y < 0.0)
    ensures c.Bottom? ==> r.x == v.x && r.y <= 0.0 && (r.y != v.y <==> v.y > 0.0)
    ensures c.Inside? ==> r == v
  {
    var reflectX := match c
      case Left => v.x > 0.0
      case Right => v.x < 0.0
      case _ => false;
    var reflectY := match c
      case Top => v.y < 0.0
      case Bottom => v.y > 0.0
      case _ => false;
    var x := if reflectX then v.x * -1.0 else v.x;
    var y := if reflectY then v.y * -1.0 else v.y;
    Vec2(x, y)
  }

  /** A second contact on the same side changes nothing. */
  lemma ReflectIdempotent(c: Collision, v: Vec2)
    ensures Reflect(c, Reflect(c, v)) == Reflect(c, v)
  {
  }

  /** A unit velocity stays a unit velocity through any contact. */
  lemma ReflectKeepsUnit(c: Collision, v: Vec2)
    requires Unit(v)
    ensures Unit(Reflect(c, v))
    ensures Reflect(c, v) == v || Reflect(c, v) == Vec2(-v.x, v.y) || Reflect(c, v) == Vec2(v.x, -v.y)
  {
  }

  /** Contacts on different axes act on different components and so commute. */
  lemma ReflectAcrossAxesCommute(a: Collision, b: Collision, v: Vec2)
    requires a.XSide() && b.YSide()
    ensures Reflect(a, Reflect(b, v)) == Reflect(b, Reflect(a, v))
  {
  }

  /** Contacts on opposite sides of one axis do not commute: the order in
      which colliders are visited can decide the outcome of a tick. */
  lemma OppositeSidesOrderMatters()
    ensures Reflect(Collision.Left, Reflect(Collision.Right, Vec2(1.0, 1.0))) == Vec2(-1.0, 1.0)
    ensures Reflect(Collision.Right, Reflect(Collision.Left, Vec2(1.0, 1.0))) == Vec2(1.0, 1.0)
  {
  }

  /** Velocity after the overlap test for one collider. */
  function Resolve(o: Option<Collision>, v: Vec2): Vec2
  {
    match o
    case None => v
    case Some(c) => Reflect(c, v)
  }

  /** Number of colliders the ball overlaps. */
  function CountSome(results: seq<Option<Collision>>): (n: nat)
    ensures n <= |results|
  {
    if |results| == 0 then 0
    else (if results[0].Some? then 1 else 0) + CountSome(results[1..])
  }

  lemma {:induction false} CountSomeSnoc(results: seq<Option<Collision>>, o: Option<Collision>)
    ensures CountSome(results + [o]) == CountSome(results) + (if o.Some? then 1 else 0)
  {
    if |results| > 0 {
      assert (results + [o])[1..] == results[1..] + [o];
      CountSomeSnoc(results[1..], o);
    }
  }

  /** Outcome of one collision pass: the ball and the number of collision
      events sent. */
  datatype PassResult = PassResult(ball: Ball, events: nat)

  /** One collision pass over the overlap results of the colliders, in the
      order they are visited. Each overlap sends one event and applies the
      reflection rule to the velocity left by the colliders before it. */
  function Pass(ball: Ball, results: seq<Option<Collision>>): (r: PassResult)
    ensures r.ball.transform == ball.transform
    ensures r.events == CountSome(results)
    ensures Abs(r.ball.velocity.x) == Abs(ball.velocity.x)
    ensures Abs(r.ball.velocity.y) == Abs(ball.velocity.y)
    ensures r.events == 0 ==> r.ball == ball
    decreases |results|
  {
    if |results| == 0 then PassResult(ball, 0)
    else
      var init := results[..|results| - 1];
      var last := results[|results| - 1];
      var prev := Pass(ball, init);
      assert results == init + [last];
      CountSomeSnoc(init, last);
      var v := Resolve(last, prev.ball.velocity);
      PassResult(Ball(prev.ball.transform, v), prev.events + (if last.Some? then 1 else 0))
  }

  /** A pass over two lists in a row is one pass over their concatenation. */
  lemma {:induction false} PassAppend(ball: Ball, a: seq<Option<Collision>>, b: seq<Option<Collision>>)
    ensures Pass(ball, a + b).ball == Pass(Pass(ball, a).ball, b).ball
    ensures Pass(ball, a + b).events == Pass(ball, a).events + Pass(Pass(ball, a).ball, b).events
    decreases |b|
  {
    if |b| > 0 {
      var b' := b[..|b| - 1];
      assert a + b == (a + b') + [b[|b| - 1]];
      assert (a + b)[..|a + b| - 1] == a + b';
      PassAppend(ball, a, b');
    } else {
      assert a + b == a;
    }
  }

  /** Starting from a unit velocity, the velocity stays a unit velocity
      through any sequence of collision results. */
  lemma PassKeepsUnit(ball: Ball, results: seq<Option<Collision>>)
    requires Unit(ball.velocity)
    ensures Unit(Pass(ball, results).ball.velocity)
  {
  }

  /** The ball overlapping a collider on its left and another on its top in
      one tick, moving right and down, leaves moving left and up. */
  lemma CornerHitFlipsBoth(t: Transform)
    ensures Pass(Ball(t, Vec2(1.0, -1.0)), [Some(Collision.Left), Some(Collision.Top)])
      == PassResult(Ball(t, Vec2(-1.0, 1.0)), 2)
  {
  }

  /** The collision pass as a loop over the colliders. The ball's transform
      is only read; the velocity and the event count are its results. */
  method CheckForCollisions(ball: Ball, results: seq<Option<Collision>>)
    returns (velocity: Vec2, events: nat)
    ensures PassResult(Ball(ball.transform, velocity), events) == Pass(ball, results)
    ensures events == CountSome(results)
    ensures Unit(ball.velocity) ==> Unit(velocity)
  {
    velocity := ball.velocity;
    events := 0;
    var i := 0;
    while i < |results|
      invariant 0 <= i <= |results|
      invariant PassResult(Ball(ball.transform, velocity), events) == Pass(ball, results[..i])
    {
      assert results[..i + 1][..i] == results[..i];
      match results[i] {
        case Some(collision) =>
          events := events + 1;
          var reflectX := false;
          var reflectY := false;
          match collision {
            case Left => reflectX := velocity.x > 0.0;
            case Right => reflectX := velocity.x < 0.0;
            case Top => reflectY := velocity.y < 0.0;
            case Bottom => reflectY := velocity.y > 0.0;
            case Inside =>
          }
          if reflectX {
            velocity := velocity.(x := velocity.x * -1.0);
          }
          if reflectY {
            velocity := velocity.(y := velocity.y * -1.0);
          }
        case None =>
      }
      i := i + 1;
    }
    assert results[..i] == results;
  }
}
