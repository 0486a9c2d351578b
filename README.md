# Alpha Pigeon game logic in Dafny

A model of three pieces of the game logic of Alpha Pigeon, a libGDX/Box2D arcade
game in which a pigeon dodges obstacles:

- **The game screen's frame** (module `Screens`, `GameScreen.dfy`). Each frame:
  - adds the frame's delta to `stateTime`;
  - draws background, score, dodgeables and pigeon;
  - steps the physics world, whose contact callbacks can end the game;
  - updates background, score and dodgeables;
  - turns touch and arrow keys into force requests on the pigeon;
  - confines the pigeon to the 80 x 48 viewport with an inelastic wall rule.

  A begin-contact ends the game (the high score stops counting) exactly when
  the pigeon's body owns one of the two fixtures.
- **The level-one bird** (module `MovingObjects`, `LevelOneBird.dfy`):
  - its force multiplier, the straight line through 1 at pigeon speed 9 and
    10 at pigeon speed 300;
  - its spawn at the right edge of the viewport;
  - `init`, which reactivates the bird at a given or random height, requests
    a purely horizontal push and marks the bird alive.
- **Per-body metadata** (module `Resources`, `BodyData.dfy`): the mutable
  record attached to each physics body. It holds the delete flag (unset reads
  as false) and the fixed defaults. Each setter changes its own field only. The
  rocket's vertical force follows a piecewise-affine rule chosen by the half of
  the screen the rocket spawns in.

Support modules:
- `Viewport.dfy` holds the camera size.
- `Physics.dfy` holds an abstract physics body with these fields:
  - position, velocity, angle and the active flag;
  - the force requests made since the last step;
  - the collision filter.

Modelling choices:
- `float` arithmetic is read as exact `real` arithmetic.
- Java `long` is the newtype `Long` and `int` is `Int32`.
- A Java `null` delete flag is `None`.
- Calls into classes whose code is not part of this model go into a trace,
  `GameScreen.calls`, so the frame order can be stated. These are the
  background, the high score, the dodgeables, the pigeon's `render` and the
  world step.
- The high score is reduced to the flag `counting`.
- `MathUtils.random(0, h)` is a nondeterministic choice (`:|`) of a value
  between 0 and `h`.
- Values held by classes not in this model become parameters:
  - the pigeon speed (`GameVariables.pigeonSpeed`);
  - the random-height sentinel (`Birds.VERT_POSITION_RANDOM`);
  - the level-one bird's category and mask bits.
- A world step is a `StepOutcome` parameter. It gives the pigeon's state after
  integration and the contact callbacks the engine fires during the step. The
  step clears the pending force requests.

Facts about the code that the model keeps:
- `render` draws first. `update` then steps the world, updates the
  collaborators, processes input and clamps.
- `BodyData`'s only constructor and its setter take a primitive `boolean`, so
  the flag is never null once a record exists. The model keeps `Option<bool>`,
  and the getter still reads `None` as false.
- `render` reads the frame's delta from `Gdx.graphics.getDeltaTime()` and
  ignores its own argument. libGDX's `Game.render` passes that same value, so
  the model's `Render` takes the delta as its argument.
- The level-one bird reads the viewport size from the camera it is given, so
  its constructor takes the camera's width and height. `MathUtils.random(0, h)`
  with a negative `h` returns a value of [h, 0], and the model keeps that case.

## Model

| member | source | states |
|---|---|---|
| Screens.Clamped | core/src/io/github/patpatchpatrick/alphapigeon/Screens/GameScreen.java:197-220 | The four sequential wall checks act on each axis on its own. Each coordinate is snapped into [0, 70] or [0, 43]. An axis that was out of range has its velocity zeroed, otherwise the velocity is kept. The angle is kept. The result is always within the viewport bounds. |
| Screens.ClampedOutOfRange | core/src/io/github/patpatchpatrick/alphapigeon/Screens/GameScreen.java:197-220 | For each violated bound the position becomes exactly that bound and that axis's velocity becomes 0. An in-range axis keeps its position and velocity. The angle is unchanged. |
| Screens.ClampedFixesExactlyInBounds | core/src/io/github/patpatchpatrick/alphapigeon/Screens/GameScreen.java:197-220 | The clamp leaves the state unchanged if and only if the pigeon is already within bounds. |
| Screens.ClampedIdempotent | core/src/io/github/patpatchpatrick/alphapigeon/Screens/GameScreen.java:197-220 | Clamping twice is the same as clamping once. |
| Screens.GameScreen.ConfineToViewport | core/src/io/github/patpatchpatrick/alphapigeon/Screens/GameScreen.java:196-220 | The four `if` blocks, run on the body, leave it in the state `Clamped` gives for its old state. The pigeon ends in bounds. Force requests, the active flag and the filter are untouched. |
| Screens.KeyAxis | core/src/io/github/patpatchpatrick/alphapigeon/Screens/GameScreen.java:190-193 | Each pair of opposite arrow keys gives +5 or -5 on its axis when one key is held. Both held or neither held gives 0. |
| Screens.NetInputForce | core/src/io/github/patpatchpatrick/alphapigeon/Screens/GameScreen.java:182-193 | The net force requested in a frame is 0.3 times (touch - position) on each axis when touched, plus the arrow-key contribution of each axis. LEFT and RIGHT cancel, and so do UP and DOWN. |
| Screens.GameScreen.ApplyInput | core/src/io/github/patpatchpatrick/alphapigeon/Screens/GameScreen.java:181-193 | The pigeon's requests grow by exactly `InputForces(input, position)`, in source order: touch, then LEFT, RIGHT, UP, DOWN. The position is not changed. |
| Screens.GameScreen.ApplyTouch | core/src/io/github/patpatchpatrick/alphapigeon/Screens/GameScreen.java:182-189 | A touch adds one request of 0.3 times (touch - current position). No touch adds nothing. |
| Screens.GameScreen.ApplyKey | core/src/io/github/patpatchpatrick/alphapigeon/Screens/GameScreen.java:190-193 | A held key adds its one request. A key not held adds nothing. |
| Screens.EndsGameRule | core/src/io/github/patpatchpatrick/alphapigeon/Screens/GameScreen.java:229-235 | The game-over rule is symmetric in fixtures A and B. It fires only on begin-contact, and never when the pigeon owns neither fixture. |
| Screens.GameOverIsFinal | core/src/io/github/patpatchpatrick/alphapigeon/Screens/GameScreen.java:229-262 | Once a contact history contains a pigeon begin-contact, every extension of it does too, so the score never counts again. |
| Screens.ElapsedMonotone | core/src/io/github/patpatchpatrick/alphapigeon/Screens/GameScreen.java:111-112 | With non-negative frame deltas, the state time after any prefix of frames is at least 0 and at most the state time after all of them. |
| Screens.GameScreen.constructor | core/src/io/github/patpatchpatrick/alphapigeon/Screens/GameScreen.java:51-96 | The pigeon starts at (10, 10) at rest with the default filter. `stateTime` is 0, the score is counting, and the invariant holds: `stateTime` is the sum of the deltas, `counting` holds iff no pigeon begin-contact has happened, and the pigeon is in bounds. |
| Screens.GameScreen.Render | core/src/io/github/patpatchpatrick/alphapigeon/Screens/GameScreen.java:104-132 | One frame keeps the invariant. `stateTime` grows by the delta. The calls follow the fixed order draw ×4, step, update ×3, input, clamp, and the dodgeables are drawn and updated with the new `stateTime`. The score stops iff a contact of this step is a pigeon begin-contact, or it was already stopped. The pigeon ends at `Clamped` of its post-step state, and its requests are the input forces computed from that pre-clamp position. |
| Screens.GameScreen.Update | core/src/io/github/patpatchpatrick/alphapigeon/Screens/GameScreen.java:171-222 | Step, collaborator updates with `deltaTime` and `stateTime`, input, then clamp, with the resulting contact, force and position state stated as in Render. |
| Screens.GameScreen.WorldStep | core/src/io/github/patpatchpatrick/alphapigeon/Screens/GameScreen.java:173-174 | The pigeon takes its integrated state and its pending forces are consumed. Each contact callback is delivered to the listener in order. The score stays counting iff none of them is a pigeon begin-contact. |
| Screens.GameScreen.OnContact | core/src/io/github/patpatchpatrick/alphapigeon/Screens/GameScreen.java:229-251 | Counting afterwards iff counting before and the event is not a begin-contact with the pigeon's body as A or B. End-contact, pre-solve and post-solve change nothing. |
| Screens.GameScreen.GameOver | core/src/io/github/patpatchpatrick/alphapigeon/Screens/GameScreen.java:257-262 | The high score stops counting; nothing else changes. |
| MovingObjects.ForceMultiplier | core/src/io/github/patpatchpatrick/alphapigeon/dodgeables/MovingObjects/LevelOneBird.java:74-82 | The multiplier equals the linear interpolation 1 + (speed - 9)·(10 - 1)/(300 - 9) through the two design points in the doc comment. |
| MovingObjects.ForceMultiplierDesignPoints | core/src/io/github/patpatchpatrick/alphapigeon/dodgeables/MovingObjects/LevelOneBird.java:79-82 | The multiplier is 1 at speed 9, 10 at speed 300 and 70/97 at speed 0. |
| MovingObjects.ForceMultiplierIncreasing | core/src/io/github/patpatchpatrick/alphapigeon/dodgeables/MovingObjects/LevelOneBird.java:82 | The multiplier is strictly increasing in the pigeon's speed. |
| MovingObjects.SpawnForce | core/src/io/github/patpatchpatrick/alphapigeon/dodgeables/MovingObjects/LevelOneBird.java:59 | The spawn force has no vertical part. It points left for a positive multiplier and right for a negative one. |
| MovingObjects.SpawnForceLeftward | core/src/io/github/patpatchpatrick/alphapigeon/dodgeables/MovingObjects/LevelOneBird.java:59-66 | At any non-negative pigeon speed the spawn force is horizontal and leftward, at least 70/97 of the base force -9. |
| MovingObjects.LevelOneBird.constructor | core/src/io/github/patpatchpatrick/alphapigeon/dodgeables/MovingObjects/LevelOneBird.java:23-44 | A fresh, active body at rest at x = the camera's viewport width and a random y between 0 and viewport height - 6, so in [0, height - 6] whenever the viewport is at least 6 high. It carries the level-one-bird category and mask bits, and the bird is not yet alive. |
| MovingObjects.LevelOneBird.SetForceMultiplier | core/src/io/github/patpatchpatrick/alphapigeon/dodgeables/MovingObjects/LevelOneBird.java:74-86 | The field becomes `ForceMultiplier(pigeonSpeed)` whatever `totalGameTime` is. |
| MovingObjects.LevelOneBird.Init | core/src/io/github/patpatchpatrick/alphapigeon/dodgeables/MovingObjects/LevelOneBird.java:46-72 | After either branch the bird is alive and its body active, at x = viewport width. y is `verticalPosition`, or, when that equals the random sentinel, a random value between 0 and viewport height - 6 (in [0, height - 6] for a viewport at least 6 high). The angle, velocity and filter are kept. Exactly one force request (multiplier·(-9), 0) is added, with the multiplier taken from the pigeon speed. |
| Resources.RocketYForce | core/src/io/github/patpatchpatrick/alphapigeon/resources/BodyData.java:71-79 | For non-negative torque the force is at most -0.2, and at most -0.6 when the rocket spawns in the top half. |
| Resources.RocketYForceAtUnitTorque | core/src/io/github/patpatchpatrick/alphapigeon/resources/BodyData.java:74-78 | Torque 1 gives -0.4 in the bottom half and -0.9 in the top half. |
| Resources.RocketYForceTopSteeper | core/src/io/github/patpatchpatrick/alphapigeon/resources/BodyData.java:74-78 | For torque ≥ 0 the top-half force is strictly below the bottom-half force, which is negative. |
| Resources.BodyData.IsFlaggedForDelete | core/src/io/github/patpatchpatrick/alphapigeon/resources/BodyData.java:37-43 | True exactly when the flag is set to true. An unset flag reads as false. |
| Resources.BodyData.constructor | core/src/io/github/patpatchpatrick/alphapigeon/resources/BodyData.java:14-35 | The flag is set to the argument, so `IsFlaggedForDelete()` returns it. The other defaults are spawn time 9999, no teleport, rocket force 0, explosion time 99999, beam direction 0, no UFO and power-up type 0. |
| Resources.BodyData.SetFlaggedForDelete | core/src/io/github/patpatchpatrick/alphapigeon/resources/BodyData.java:45-47 | The flag reads back as the value set, and every other field is unchanged. |
| Resources.BodyData.SetSpawnTime | core/src/io/github/patpatchpatrick/alphapigeon/resources/BodyData.java:49-55 | `GetSpawnTime()` returns the value set, and every other field is unchanged. |
| Resources.BodyData.SetOppositeTeleport | core/src/io/github/patpatchpatrick/alphapigeon/resources/BodyData.java:59-67 | `GetOppositeTeleport()` returns the reference set, and every other field is unchanged. |
| Resources.BodyData.SetRocketData | core/src/io/github/patpatchpatrick/alphapigeon/resources/BodyData.java:71-79 | The rocket force becomes `RocketYForce` of this call's arguments, whatever it was before, and every other field is unchanged. |
| Resources.BodyData.SetExplosionData | core/src/io/github/patpatchpatrick/alphapigeon/resources/BodyData.java:81-87 | `GetExplosionTime()` returns the value set, and every other field is unchanged. |
| Resources.BodyData.SetUfo | core/src/io/github/patpatchpatrick/alphapigeon/resources/BodyData.java:95-101 | `GetUfo()` returns the reference set, and every other field is unchanged. |
| Resources.BodyData.SetEnergyBeamDirection | core/src/io/github/patpatchpatrick/alphapigeon/resources/BodyData.java:104-110 | `GetEnergyBeamDirection()` returns the value set, and every other field is unchanged. |

## Left out

- Physics integration by `world.step`, body and fixture creation from shape assets (`BodyEditorLoader`), and the engine's force accumulation. The step's result for the pigeon and its contact callbacks are inputs of the model.
- Rendering, the camera's matrices and `unproject`, the debug renderer, and screen clearing. The touch point is given already in world coordinates.
- Sound and music loading and playback, `dispose`, `resize`, `show`, `pause`, `resume`, `hide` and logging.
- What the background, high score and dodgeables do in their `render` and `update`. The frame records only that they are called, in order, and with which arguments. The high score's arithmetic is left out; only its "counting" flag is modelled.
- IEEE-754 rounding of `float`, since all arithmetic is exact over `real`. This is why torque 1 gives exactly -0.4 and -0.9.
- `MathUtils.random`'s half-open range [start, end): the model allows any value of the closed range.
- The Android launcher, with its HTTP score submission, settings storage, ads, billing and database, which is platform I/O.
- The values of `GameVariables`' category and mask constants and of `Birds.VERT_POSITION_RANDOM`. These classes are not part of this model, so their values are parameters.
- MovingObjects.LevelOneBird.Init: the source reads the camera's viewport size again on every `init`; the model reads it once, when the bird is built, and so assumes the camera's size does not change afterwards (the camera belongs to the dodgeables manager, whose code is not part of this model).
- Within one world step, the order of contact callbacks relative to the pigeon's position update is not modelled, since the listener does not read the position.
- Screens.GameScreen.Render and Screens.GameScreen.Update assume that the background, high score and dodgeables updates leave the pigeon body alone: the dodgeables hold the pigeon and could move or push it, but their code is not part of this model, so the pigeon's final state and force requests are stated as if those updates did not touch it.
