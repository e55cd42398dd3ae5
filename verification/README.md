# Pong gameplay rules in Dafny

A model of the gameplay core of a small Pong clone written in Rust on the
Bevy engine (`src/main.rs`). The engine supplies windowing, rendering, the
entity store, the fixed-rate scheduler and the box-overlap test; the game
itself contributes a handful of rules, each modelled here as a pure
function over exact reals:

- **Arena** (`arena.dfy`): the compile-time constants (window 750×450, gap 30,
  wall thickness 10, paddle 10×100, ball 10×10, speed 200, step 1/60 s), the
  vector and transform records, and the centre and size of each of the four
  walls.
- **Paddle** (`paddle.dfy`): two held keys give a direction in {-1, 0, +1};
  the paddle's y moves by `direction * SPEED * TIME_STEP` and is clamped to
  `[-140, 140]`, where its edge touches the inner face of a horizontal wall.
- **Kinematics** (`kinematics.dfy`): the ball's centre advances by
  `velocity * TIME_STEP * SPEED` per tick.
- **Collisions** (`collisions.dfy`): the reflection rule (`Left` turns a
  positive x velocity, `Right` a negative one, `Top` a negative y velocity,
  `Bottom` a positive one, `Inside` nothing) and the collision pass, a fold
  of that rule over the overlap results of the colliders in visiting order
  that sends one event per overlap. The engine's overlap test is not part
  of this model: its results (`Option<Collision>` per collider) are an input.
- **Game** (`game.dfy`): one tick composed as the program schedules it
  (paddles and ball move, then the collision pass), the start-up state, and
  the invariant that a run of ticks keeps: paddles inside their bounds and
  ball velocity (±1, ±1).

Events are modelled as a counter. The ball's transform is a read-only input
of the collision pass: `Collisions.Pass` returns the ball with its transform
unchanged, and the loop form `Collisions.CheckForCollisions` returns only the
new velocity and the event count.

Notes on the program as written:

- The ball itself carries the `Collider` marker (`src/main.rs:206`), so the
  collider query visits the ball too and the overlap test compares the ball
  with itself. That result is simply one more element of the contacts input;
  with the engine's test it reports `Inside`, which sends an event and changes
  nothing, so the event count per tick includes it.
- Which side the engine reports for a given pair of boxes is the engine's
  business. The model speaks only of reported sides: for instance, a reported
  `Top` flips a negative y velocity, whatever wall produced it. Statements of
  the form "the ball overlapping the top wall with y velocity -1 flips" depend
  on the engine's side naming and are not made here.
- The float `clamp` the paddle uses refuses bounds in the wrong order; the
  model's `Clamp` requires `lo <= hi`, and the paddle bounds meet it
  (`BottomBound() == -140 <= 140 == TopBound()`).

## Model

| member | source | states |
|---|---|---|
| Arena.StepLength | src/main.rs:13-34 | the distance per tick at unit velocity is SPEED/60, i.e. SPEED covered in 60 ticks |
| Arena.Position | src/main.rs:62-70 | vertical walls sit on the x axis and horizontal ones on the y axis, each at half the window size minus the gap from the centre; only the left wall has negative x and only the bottom wall negative y |
| Arena.Size | src/main.rs:72-84 | every wall is WALL_THINKNESS across; a vertical wall spans the distance between the horizontal walls' centres plus one thickness, a horizontal wall the distance between the vertical walls' centres plus one thickness |
| Arena.WallsMirrorSymmetric | src/main.rs:18-21 | opposite walls are mirror images through the origin (Left = -Right, Top = -Bottom) and have the same size |
| Arena.HorizontalIsTransposedVertical | src/main.rs:72-84 | a horizontal wall's size, transposed, is a vertical wall's size lengthened by the difference between arena width and arena height |
| Arena.CornersClosed | src/main.rs:72-84 | at every corner the outer edges of the vertical and horizontal walls coincide on both axes, so the walls enclose the arena without a gap |
| Paddle.Direction | src/main.rs:270-273 | direction is +1 iff only up is held, -1 iff only down is held, 0 iff neither or both |
| Paddle.TopBound | src/main.rs:277 | the top bound is 140: a paddle centred there touches the inner face of the top wall |
| Paddle.BottomBound | src/main.rs:278 | the bottom bound is the negated top bound: a paddle centred there touches the inner face of the bottom wall |
| Paddle.Clamp | src/main.rs:280 | for ordered bounds the result lies within them, equals the input when it is already inside, and is the crossed bound otherwise |
| Paddle.PaddleMovement | src/main.rs:264-281 | the new y is within the bounds; x, z and scale are unchanged; an in-range target is taken exactly and a target beyond a bound saturates at that bound; from inside the bounds the paddle moves at most one step; with neither or both keys held it stays put; held up never moves it down except onto the top bound, and symmetrically for down |
| Paddle.HoldUpReachesTop | src/main.rs:275-280 | holding only up for n ticks from inside the bounds puts the paddle at min(y + n·step, top bound), on the same x |
| Paddle.HoldDownReachesBottom | src/main.rs:275-280 | holding only down for n ticks from inside the bounds puts the paddle at max(y - n·step, bottom bound), on the same x |
| Kinematics.MoveBall | src/main.rs:255-262 | z and scale are unchanged and the displacement on each axis is the velocity component times SPEED·TIME_STEP; at unit velocity each axis moves exactly SPEED/60 |
| Kinematics.MoveBallReversible | src/main.rs:259-260 | a move followed by a move with the negated velocity returns the ball to where it was |
| Kinematics.MoveBallTicksStraight | src/main.rs:259-260 | n collision-free ticks move the ball n step lengths along its velocity, leaving z and scale unchanged |
| Kinematics.FromOriginDiagonal | src/main.rs:255-262 | from the origin at velocity (1, 1), after n ticks the ball is at (n·dt·speed, n·dt·speed) |
| Collisions.Reflect | src/main.rs:234-250 | the reflection table: Left negates vx iff vx > 0, Right iff vx < 0, Top negates vy iff vy < 0, Bottom iff vy > 0, Inside changes nothing; after a side hit the component points away from the collider; at most one component changes and no magnitude changes |
| Collisions.ReflectIdempotent | src/main.rs:237-246 | applying the same side twice equals applying it once |
| Collisions.ReflectKeepsUnit | src/main.rs:234-250 | a (±1, ±1) velocity stays (±1, ±1); the result is the input with at most one component negated |
| Collisions.ReflectAcrossAxesCommute | src/main.rs:237-250 | a left/right contact and a top/bottom contact give the same velocity in either order |
| Collisions.OppositeSidesOrderMatters | src/main.rs:217-250 | Left then Right and Right then Left give different velocities from (1, 1), so the collider visiting order can matter |
| Collisions.Pass | src/main.rs:210-253 | the pass leaves the ball's transform unchanged, sends as many events as there are overlaps, keeps both velocity magnitudes, and changes nothing when no collider overlaps |
| Collisions.PassAppend | src/main.rs:217-252 | a pass over a concatenated collider list equals the pass over the second part started from the first part's result, with event counts added |
| Collisions.PassKeepsUnit | src/main.rs:234-250 | from a (±1, ±1) velocity, any sequence of collision results leaves it (±1, ±1) |
| Collisions.CornerHitFlipsBoth | src/main.rs:237-250 | overlaps reported on the Left and on the Top in one pass turn velocity (1, -1) into (-1, 1) and send two events |
| Collisions.CheckForCollisions | src/main.rs:210-253 | the loop over the colliders computes the same velocity and event count as the fold, the count equals the number of overlaps, and a unit velocity stays unit |
| Game.Initial | src/main.rs:161-207 | the start-up world satisfies the game invariant, with the ball moving up and to the right |
| Game.Tick | src/main.rs:135-142 | W/S move the left paddle and the up/down arrows the right one (src/main.rs:288, 296); the new ball is the collision pass run on the ball moved by its pre-collision velocity; a tick keeps the game invariant, sends one event per overlap, moves the ball by its pre-collision velocity, and changes the velocity only by sign and only when something overlaps |
| Game.Run | src/main.rs:135-142 | any run of ticks from a valid world ends in a valid world |
| Game.GameInvariant | src/main.rs:135-142 | from start-up, for any keys and any overlap results, both paddles stay within their bounds and the ball's velocity stays (±1, ±1) |

## Left out

- The engine's box-overlap test (`collide`, imported at `src/main.rs:5`): its body is not part of this model; its per-collider results are an input of the collision pass and of each tick.
- 32-bit float arithmetic, rounding and NaN: all coordinates are exact reals.
- Application wiring (`main`, `setup`, `WallBundle`, the queries and `single_mut`): engine plumbing. `Game.Initial` records only the start-up values of the entities that change; `single_mut`'s abort when there is not exactly one ball or paddle is modelled by passing exactly one of each.
- The fixed-rate scheduler and the event bus: a tick is one function call and events are a counter.
- The debugging output at `src/main.rs:226-231`: it prints and changes no state.
- Rendering, colours, meshes, camera, window settings and the rotation part of a transform: none of them affect the rules.
- Paddle.Clamp: requires `lo <= hi` instead of modelling the float clamp's abort on bounds in the wrong order; the only caller passes -140 and 140, which are ordered.
- `WallLocation::side` (`src/main.rs:86`): the identity, used only to build a wall entity.
