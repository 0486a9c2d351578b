/**
 * The level-one bird: a dodgeable that enters at the right edge of the
 * viewport and is pushed leftwards with a force that grows with the
 * pigeon's speed.
 */
module MovingObjects {
  import opened Physics

  const WIDTH: real := 6.0
  const HEIGHT: real := 6.0
  const FORCE_X: real := -9.0

  /**
   * The force multiplier for a given pigeon speed. It is the straight line
   * through the two design points: 1 at the initial speed 9 and 10 at the
   * maximum speed 300.
   */
  function ForceMultiplier(pigeonSpeed: real): (m: real)
    ensures m == 1.0 + (pigeonSpeed - 9.0) * (10.0 - 1.0) / (300.0 - 9.0)
  {
    (3.0 / 97.0) * pigeonSpeed + (70.0 / 97.0)
  }

  lemma ForceMultiplierDesignPoints()
    ensures ForceMultiplier(9.0) == 1.0
    ensures ForceMultiplier(300.0) == 10.0
    ensures ForceMultiplier(0.0) == 70.0 / 97.0
  {
  }

  /** A faster pigeon always gives a strictly larger multiplier. */
  lemma ForceMultiplierIncreasing(s1: real, s2: real)
    requires s1 < s2
    ensures ForceMultiplier(s1) < ForceMultiplier(s2)
  {
  }

  /** The force applied when a bird is initialised with multiplier `m`. */
  function SpawnForce(m: real): (f: Vec)
    ensures f.y == 0.0
    ensures m > 0.0 ==> f.x < 0.0
    ensures m < 0.0 ==> f.x > 0.0
  {
    Vec(m * FORCE_X, 0.0)
  }

  /** At any non-negative pigeon speed the spawn force points left, with at least 70/97 of the base force. */
  lemma SpawnForceLeftward(pigeonSpeed: real)
    requires pigeonSpeed >= 0.0
    ensures SpawnForce(ForceMultiplier(pigeonSpeed)).x <= FORCE_X * (70.0 / 97.0) < 0.0
    ensures SpawnForce(ForceMultiplier(pigeonSpeed)).y == 0.0
  {
  }

  /**
   * The values `MathUtils.random(start, end)` can return: start plus a
   * fraction of (end - start), so anything between the two bounds, whichever
   * is larger.
   */
  predicate RandomBetween(start: real, end: real, v: real)
  {
    if start <= end then start <= v <= end else end <= v <= start
  }

  class LevelOneBird {
    const body: Body
    /** The size of the camera the bird was created with. */
    const viewportWidth: real
    const viewportHeight: real
    var alive: bool
    var forceMultiplier: real

    /** The highest spawn height that keeps the whole bird on screen. */
    function MaxSpawnY(): real
    {
      viewportHeight - HEIGHT
    }

    /**
     * Creates the bird's body, active and at rest, at the right edge of the
     * given camera's viewport and at a random height in [0, MaxSpawnY()], with
     * the level-one-bird collision filter. The category and mask values live
     * with the game's global constants and are passed in.
     */
    constructor (cameraWidth: real, cameraHeight: real, categoryBits: int, maskBits: int)
      ensures fresh(body)
      ensures viewportWidth == cameraWidth && viewportHeight == cameraHeight
      ensures body.x == viewportWidth && RandomBetween(0.0, MaxSpawnY(), body.y)
      ensures viewportHeight >= HEIGHT ==> 0.0 <= body.y <= MaxSpawnY()
      ensures body.vx == 0.0 && body.vy == 0.0 && body.angle == 0.0
      ensures body.active
      ensures body.filter == Filter(categoryBits, maskBits)
      ensures body.forces == []
      ensures !alive
    {
      viewportWidth, viewportHeight := cameraWidth, cameraHeight;
      assert RandomBetween(0.0, cameraHeight - HEIGHT, 0.0);
      var y: real :| RandomBetween(0.0, cameraHeight - HEIGHT, y);
      body := new Body(cameraWidth, y, Filter(categoryBits, maskBits));
      alive := false;
      forceMultiplier := 0.0;
    }

    /** The multiplier depends on the pigeon's speed only; the game time is ignored. */
    method SetForceMultiplier(totalGameTime: real, pigeonSpeed: real)
      modifies this`forceMultiplier
      ensures forceMultiplier == ForceMultiplier(pigeonSpeed)
    {
      forceMultiplier := ForceMultiplier(pigeonSpeed);
    }

    /**
     * Reactivates the bird at the right edge: at `verticalPosition`, or at a
     * random height when that equals the "random position" sentinel; keeps
     * the angle and velocity, requests the spawn force and marks the bird alive.
     */
    method Init(totalGameTime: real, verticalPosition: real, pigeonSpeed: real, randomSentinel: real)
      modifies this`alive, this`forceMultiplier, body
      ensures alive && body.active
      ensures forceMultiplier == ForceMultiplier(pigeonSpeed)
      ensures body.x == viewportWidth
      ensures verticalPosition != randomSentinel ==> body.y == verticalPosition
      ensures verticalPosition == randomSentinel ==> RandomBetween(0.0, MaxSpawnY(), body.y)
      ensures verticalPosition == randomSentinel && viewportHeight >= HEIGHT ==> 0.0 <= body.y <= MaxSpawnY()
      ensures body.angle == old(body.angle)
      ensures body.vx == old(body.vx) && body.vy == old(body.vy)
      ensures body.forces == old(body.forces) + [SpawnForce(forceMultiplier)]
      ensures body.filter == old(body.filter)
    {
      SetForceMultiplier(totalGameTime, pigeonSpeed);
      if verticalPosition == randomSentinel {
        body.SetActive(true);
        assert RandomBetween(0.0, MaxSpawnY(), 0.0);
        var y: real :| RandomBetween(0.0, MaxSpawnY(), y);
        body.SetTransform(viewportWidth, y, body.angle);
        body.ApplyForceToCenter(Vec(forceMultiplier * FORCE_X, 0.0));
        alive := true;
      } else {
        body.SetActive(true);
        body.SetTransform(viewportWidth, verticalPosition, body.angle);
        body.ApplyForceToCenter(Vec(forceMultiplier * FORCE_X, 0.0));
        alive := true;
      }
    }
  }
}
