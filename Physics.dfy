/**
 * An abstract rigid body of the physics engine: only the state the game code
 * reads or writes. Integration, shapes and fixtures are not modelled; a force
 * request is recorded in `forces` and is consumed by the next world step.
 */
module Physics {

  /** A two-dimensional vector (a force, a position or a velocity). */
  datatype Vec = Vec(x: real, y: real)

  /** The kinematic part of a body: position, linear velocity and angle. */
  datatype BodyState = BodyState(x: real, y: real, vx: real, vy: real, angle: real)

  /** A fixture's collision filter: its own category bits and the categories it collides with. */
  datatype Filter = Filter(categoryBits: int, maskBits: int)

  /** The filter a fixture gets when the game does not set one (category 1, collides with all). */
  const DEFAULT_FILTER := Filter(0x0001, 0xFFFF)

  /** The sum of a sequence of force requests: the force the engine applies at the next step. */
  function NetForce(fs: seq<Vec>): Vec
  {
    if fs == [] then Vec(0.0, 0.0)
    else
      var rest := NetForce(fs[..|fs| - 1]);
      Vec(rest.x + fs[|fs| - 1].x, rest.y + fs[|fs| - 1].y)
  }

  /** Accumulating two batches of requests is the same as adding their sums. */
  lemma {:induction false} NetForceAppend(a: seq<Vec>, b: seq<Vec>)
    ensures NetForce(a + b) == Vec(NetForce(a).x + NetForce(b).x, NetForce(a).y + NetForce(b).y)
    decreases |b|
  {
    if b == [] {
      assert a + b == a;
    } else {
      var n := |b| - 1;
      assert (a + b)[..|a + b| - 1] == a + b[..n];
      assert (a + b)[|a + b| - 1] == b[n];
      NetForceAppend(a, b[..n]);
    }
  }

  class Body {
    var x: real
    var y: real
    var vx: real
    var vy: real
    var angle: real
    var active: bool
    /** Force requests made since the last world step. */
    var forces: seq<Vec>
    var filter: Filter

    function State(): BodyState
      reads this
    {
      BodyState(x, y, vx, vy, angle)
    }

    /** A dynamic body created at a position, at rest, unrotated and active. */
    constructor (px: real, py: real, f: Filter)
      ensures State() == BodyState(px, py, 0.0, 0.0, 0.0)
      ensures active && forces == [] && filter == f
    {
      x, y, vx, vy, angle := px, py, 0.0, 0.0, 0.0;
      active := true;
      forces := [];
      filter := f;
    }

    /** `setTransform`: moves the body; its velocity is kept. */
    method SetTransform(px: real, py: real, a: real)
      modifies this`x, this`y, this`angle
      ensures State() == old(State()).(x := px, y := py, angle := a)
    {
      x, y, angle := px, py, a;
    }

    /** `setLinearVelocity`. */
    method SetLinearVelocity(wx: real, wy: real)
      modifies this`vx, this`vy
      ensures State() == old(State()).(vx := wx, vy := wy)
    {
      vx, vy := wx, wy;
    }

    /** `applyForceToCenter`: records the request; the engine adds it at the next step. */
    method ApplyForceToCenter(f: Vec)
      modifies this`forces
      ensures forces == old(forces) + [f]
    {
      forces := forces + [f];
    }

    /** `setActive`. */
    method SetActive(b: bool)
      modifies this`active
      ensures active == b
    {
      active := b;
    }

    /**
     * The effect of one world step on this body: the engine integrates the
     * pending forces into a new state (given, not computed here) and clears them.
     */
    method StepTo(next: BodyState)
      modifies this`x, this`y, this`vx, this`vy, this`angle, this`forces
      ensures State() == next && forces == []
    {
      x, y, vx, vy, angle := next.x, next.y, next.vx, next.vy, next.angle;
      forces := [];
    }
  }
}
