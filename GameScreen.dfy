/**
 * The game screen: once per frame it advances the state time, draws, steps
 * the world, updates the collaborators, turns input into force requests on
 * the pigeon and keeps the pigeon inside the viewport. A begin-contact that
 * involves the pigeon ends the game (the high score stops counting).
 */
module Screens {
  import opened Physics
  import Viewport

  const PIGEON_WIDTH: real := 10.0
  const PIGEON_HEIGHT: real := 5.0
  /** The largest x and y at which the whole pigeon is on screen. */
  const MAX_X: real := Viewport.WIDTH - PIGEON_WIDTH
  const MAX_Y: real := Viewport.HEIGHT - PIGEON_HEIGHT

  const TOUCH_GAIN: real := 0.3
  const KEY_FORCE: real := 5.0

  // ---------------------------------------------------------------------------
  // The viewport clamp

  predicate InBounds(s: BodyState)
  {
    0.0 <= s.x <= MAX_X && 0.0 <= s.y <= MAX_Y
  }

  /** The four wall checks, in the order the frame applies them. */
  function LeftWall(s: BodyState): BodyState
  {
    if s.x < 0.0 then s.(x := 0.0, vx := 0.0) else s
  }

  function RightWall(s: BodyState): BodyState
  {
    if s.x > MAX_X then s.(x := MAX_X, vx := 0.0) else s
  }

  function BottomWall(s: BodyState): BodyState
  {
    if s.y < 0.0 then s.(y := 0.0, vy := 0.0) else s
  }

  function TopWall(s: BodyState): BodyState
  {
    if s.y > MAX_Y then s.(y := MAX_Y, vy := 0.0) else s
  }

  /** Position on one axis after an inelastic wall on each side of [0, hi]. */
  function Snap(p: real, hi: real): real
  {
    if p < 0.0 then 0.0 else if p > hi then hi else p
  }

  /** Velocity on one axis after the walls: kept inside [0, hi], stopped outside. */
  function Stop(p: real, v: real, hi: real): real
  {
    if 0.0 <= p <= hi then v else 0.0
  }

  /**
   * The four sequential wall checks act on each axis independently: every
   * coordinate is snapped into its range, the velocity on an axis that was
   * out of range becomes 0, and everything else is kept.
   */
  function Clamped(s: BodyState): (r: BodyState)
    ensures r == BodyState(Snap(s.x, MAX_X), Snap(s.y, MAX_Y),
                           Stop(s.x, s.vx, MAX_X), Stop(s.y, s.vy, MAX_Y), s.angle)
    ensures InBounds(r)
  {
    TopWall(BottomWall(RightWall(LeftWall(s))))
  }

  /** For an axis out of range, the position snaps to the violated bound and that axis's velocity is 0. */
  lemma ClampedOutOfRange(s: BodyState)
    ensures s.x < 0.0 ==> Clamped(s).x == 0.0 && Clamped(s).vx == 0.0
    ensures s.x > MAX_X ==> Clamped(s).x == MAX_X && Clamped(s).vx == 0.0
    ensures s.y < 0.0 ==> Clamped(s).y == 0.0 && Clamped(s).vy == 0.0
    ensures s.y > MAX_Y ==> Clamped(s).y == MAX_Y && Clamped(s).vy == 0.0
    ensures 0.0 <= s.x <= MAX_X ==> Clamped(s).x == s.x && Clamped(s).vx == s.vx
    ensures 0.0 <= s.y <= MAX_Y ==> Clamped(s).y == s.y && Clamped(s).vy == s.vy
    ensures Clamped(s).angle == s.angle
  {
  }

  /** The clamp changes nothing exactly when the pigeon is already in bounds. */
  lemma ClampedFixesExactlyInBounds(s: BodyState)
    ensures Clamped(s) == s <==> InBounds(s)
  {
  }

  lemma ClampedIdempotent(s: BodyState)
    ensures Clamped(Clamped(s)) == Clamped(s)
  {
    ClampedFixesExactlyInBounds(Clamped(s));
  }

  // ---------------------------------------------------------------------------
  // Input

  /**
   * One frame's input: whether the screen is touched and where (already
   * converted to world coordinates), and which arrow keys are held.
   */
  datatype Input = Input(touched: bool, touchX: real, touchY: real,
                         left: bool, right: bool, up: bool, down: bool)

  /** The touch request: a pull of 0.3 times the distance from the pigeon to the touch point. */
  function TouchForce(input: Input, p: BodyState): seq<Vec>
  {
    if input.touched then [Vec(TOUCH_GAIN * (input.touchX - p.x), TOUCH_GAIN * (input.touchY - p.y))] else []
  }

  /** The request of one arrow key: `f` when it is held, nothing otherwise. */
  function KeyForce(held: bool, f: Vec): seq<Vec>
  {
    if held then [f] else []
  }

  /** The force requests the input makes, in the order they are made, for a pigeon at `p`. */
  function InputForces(input: Input, p: BodyState): seq<Vec>
  {
    TouchForce(input, p)
    + KeyForce(input.left, Vec(-KEY_FORCE, 0.0))
    + KeyForce(input.right, Vec(KEY_FORCE, 0.0))
    + KeyForce(input.up, Vec(0.0, KEY_FORCE))
    + KeyForce(input.down, Vec(0.0, -KEY_FORCE))
  }

  lemma AppendFive<T>(s: seq<T>, a: seq<T>, b: seq<T>, c: seq<T>, d: seq<T>, e: seq<T>)
    ensures s + a + b + c + d + e == s + (a + b + c + d + e)
  {
  }

  /** The net force of an opposite pair of keys on one axis. */
  function KeyAxis(negative: bool, positive: bool): (f: real)
    ensures negative == positive ==> f == 0.0
    ensures negative && !positive ==> f == -KEY_FORCE
    ensures positive && !negative ==> f == KEY_FORCE
  {
    (if positive then KEY_FORCE else 0.0) - (if negative then KEY_FORCE else 0.0)
  }

  /**
   * The net requested force: a pull of 0.3 times the distance towards the
   * touch point, plus 5 per held arrow key on its own axis, so that opposite
   * keys cancel.
   */
  lemma NetInputForce(input: Input, p: BodyState)
    ensures NetForce(InputForces(input, p)) ==
      Vec((if input.touched then TOUCH_GAIN * (input.touchX - p.x) else 0.0) + KeyAxis(input.left, input.right),
          (if input.touched then TOUCH_GAIN * (input.touchY - p.y) else 0.0) + KeyAxis(input.down, input.up))
  {
    var t := TouchForce(input, p);
    var l := KeyForce(input.left, Vec(-KEY_FORCE, 0.0));
    var r := KeyForce(input.right, Vec(KEY_FORCE, 0.0));
    var u := KeyForce(input.up, Vec(0.0, KEY_FORCE));
    var d := KeyForce(input.down, Vec(0.0, -KEY_FORCE));
    assert InputForces(input, p) == t + l + r + u + d;
    NetFive(t, l, r, u, d);
    NetTouch(input, p);
    NetKeyPair(input.left, input.right, Vec(-KEY_FORCE, 0.0), Vec(KEY_FORCE, 0.0));
    NetKeyPair(input.down, input.up, Vec(0.0, -KEY_FORCE), Vec(0.0, KEY_FORCE));
  }

  lemma NetTouch(input: Input, p: BodyState)
    ensures NetForce(TouchForce(input, p)) ==
      if input.touched then Vec(TOUCH_GAIN * (input.touchX - p.x), TOUCH_GAIN * (input.touchY - p.y))
      else Vec(0.0, 0.0)
  {
    NetSingle(TouchForce(input, p));
  }

  /** Two opposite keys whose forces `fn` and `fp` are equal and opposite, of size `KEY_FORCE` on one axis. */
  lemma NetKeyPair(negative: bool, positive: bool, fn: Vec, fp: Vec)
    requires (fn == Vec(-KEY_FORCE, 0.0) && fp == Vec(KEY_FORCE, 0.0)) || (fn == Vec(0.0, -KEY_FORCE) && fp == Vec(0.0, KEY_FORCE))
    ensures fn.y == 0.0 ==> NetForce(KeyForce(negative, fn)).x + NetForce(KeyForce(positive, fp)).x == KeyAxis(negative, positive)
    ensures fn.y == 0.0 ==> NetForce(KeyForce(negative, fn)).y == NetForce(KeyForce(positive, fp)).y == 0.0
    ensures fn.x == 0.0 ==> NetForce(KeyForce(negative, fn)).y + NetForce(KeyForce(positive, fp)).y == KeyAxis(negative, positive)
    ensures fn.x == 0.0 ==> NetForce(KeyForce(negative, fn)).x == NetForce(KeyForce(positive, fp)).x == 0.0
  {
    NetSingle(KeyForce(negative, fn));
    NetSingle(KeyForce(positive, fp));
  }

  lemma NetFive(t: seq<Vec>, l: seq<Vec>, r: seq<Vec>, u: seq<Vec>, d: seq<Vec>)
    ensures NetForce(t + l + r + u + d) ==
      Vec(NetForce(t).x + NetForce(l).x + NetForce(r).x + NetForce(u).x + NetForce(d).x,
          NetForce(t).y + NetForce(l).y + NetForce(r).y + NetForce(u).y + NetForce(d).y)
  {
    NetForceAppend(t, l);
    NetForceAppend(t + l, r);
    NetForceAppend(t + l + r, u);
    NetForceAppend(t + l + r + u, d);
  }

  /** The net force of no request is zero, and of one request is that request. */
  lemma NetSingle(fs: seq<Vec>)
    requires |fs| <= 1
    ensures NetForce(fs) == if fs == [] then Vec(0.0, 0.0) else fs[0]
  {
    if fs != [] {
      assert fs[..0] == [];
    }
  }

  // ---------------------------------------------------------------------------
  // Contacts

  datatype ContactKind = BeginContact | EndContact | PreSolve | PostSolve

  /** A contact callback from the physics engine, with the bodies owning fixtures A and B. */
  datatype ContactEvent = ContactEvent(kind: ContactKind, bodyA: Body, bodyB: Body)

  /** Whether the listener ends the game on this event. */
  predicate EndsGame(e: ContactEvent, pigeon: Body)
  {
    e.kind == BeginContact && (e.bodyA == pigeon || e.bodyB == pigeon)
  }

  /** The same contact with fixtures A and B exchanged. */
  function Swapped(e: ContactEvent): ContactEvent
  {
    ContactEvent(e.kind, e.bodyB, e.bodyA)
  }

  /** The rule ignores which fixture is A and which is B, and only begin-contacts end the game. */
  lemma EndsGameRule(e: ContactEvent, pigeon: Body)
    ensures EndsGame(Swapped(e), pigeon) == EndsGame(e, pigeon)
    ensures e.kind != BeginContact ==> !EndsGame(e, pigeon)
    ensures e.kind == BeginContact && e.bodyA != pigeon && e.bodyB != pigeon ==> !EndsGame(e, pigeon)
  {
  }

  /** No event in the log involves the pigeon in a begin-contact. */
  predicate NoEndingContact(log: seq<ContactEvent>, pigeon: Body)
  {
    forall i :: 0 <= i < |log| ==> !EndsGame(log[i], pigeon)
  }

  lemma NoEndingContactSnoc(log: seq<ContactEvent>, e: ContactEvent, pigeon: Body)
    ensures NoEndingContact(log + [e], pigeon) == (NoEndingContact(log, pigeon) && !EndsGame(e, pigeon))
  {
    assert forall i :: 0 <= i < |log| ==> (log + [e])[i] == log[i];
    assert (log + [e])[|log|] == e;
  }

  /** Game over is final: once a log ends the game, every longer log does too. */
  lemma GameOverIsFinal(log: seq<ContactEvent>, more: seq<ContactEvent>, pigeon: Body)
    requires !NoEndingContact(log, pigeon)
    ensures !NoEndingContact(log + more, pigeon)
  {
    var i :| 0 <= i < |log| && EndsGame(log[i], pigeon);
    assert (log + more)[i] == log[i];
  }

  // ---------------------------------------------------------------------------
  // State time

  /** The state time after frames with the given deltas, starting from 0. */
  function Elapsed(deltas: seq<real>): real
  {
    if deltas == [] then 0.0 else Elapsed(deltas[..|deltas| - 1]) + deltas[|deltas| - 1]
  }

  /** With non-negative deltas the state time never goes down. */
  lemma {:induction false} ElapsedMonotone(deltas: seq<real>, k: nat)
    requires k <= |deltas|
    requires forall i :: 0 <= i < |deltas| ==> deltas[i] >= 0.0
    ensures 0.0 <= Elapsed(deltas[..k]) <= Elapsed(deltas)
    decreases |deltas|
  {
    if k == |deltas| {
      assert deltas[..k] == deltas;
      if deltas != [] {
        ElapsedMonotone(deltas[..|deltas| - 1], |deltas| - 1);
        assert deltas[..|deltas| - 1][..|deltas| - 1] == deltas[..|deltas| - 1];
      }
    } else {
      var front := deltas[..|deltas| - 1];
      ElapsedMonotone(front, k);
      assert front[..k] == deltas[..k];
    }
  }

  // ---------------------------------------------------------------------------
  // The frame

  /** Calls into collaborators whose behaviour is not modelled, and the frame's own phases. */
  datatype Call =
    | RenderBackground
    | RenderScore
    | RenderDodgeables(stateTime: real)
    | RenderPigeon(stateTime: real)
    | StepWorld
    | UpdateBackground(delta: real)
    | UpdateScore(delta: real)
    | UpdateDodgeables(stateTime: real)
    | ProcessInput
    | KeepInBounds

  /** What a frame does, in order, once the state time is `t` and the frame's delta is `dt`. */
  function FrameCalls(t: real, dt: real): seq<Call>
  {
    [RenderBackground, RenderScore, RenderDodgeables(t), RenderPigeon(t),
     StepWorld, UpdateBackground(dt), UpdateScore(dt), UpdateDodgeables(t),
     ProcessInput, KeepInBounds]
  }

  /**
   * What one world step does for the game: the pigeon's state after
   * integration, and the contact callbacks fired during the step, in order.
   */
  datatype StepOutcome = StepOutcome(pigeon: BodyState, contacts: seq<ContactEvent>)

  class GameScreen {
    const pigeonBody: Body
    var stateTime: real
    var deltaTime: real
    /** Whether the high score is still counting; false once the game is over. */
    var counting: bool
    var calls: seq<Call>
    ghost var deltas: seq<real>
    ghost var contactLog: seq<ContactEvent>

    ghost predicate Valid()
      reads this, pigeonBody
    {
      && stateTime == Elapsed(deltas)
      && counting == NoEndingContact(contactLog, pigeonBody)
      && InBounds(pigeonBody.State())
    }

    /** The pigeon starts at (10, 10) at rest, the state time at 0, the score counting. */
    constructor ()
      ensures Valid() && fresh(pigeonBody)
      ensures pigeonBody.State() == BodyState(10.0, 10.0, 0.0, 0.0, 0.0)
      ensures pigeonBody.forces == [] && pigeonBody.filter == DEFAULT_FILTER
      ensures stateTime == 0.0 && counting && calls == []
      ensures deltas == [] && contactLog == []
    {
      pigeonBody := new Body(10.0, 10.0, DEFAULT_FILTER);
      stateTime := 0.0;
      deltaTime := 0.0;
      counting := true;
      calls := [];
      deltas := [];
      contactLog := [];
    }

    /** One frame with time step `delta`. */
    method Render(delta: real, step: StepOutcome, input: Input)
      requires Valid()
      modifies this, pigeonBody
      ensures Valid()
      ensures deltas == old(deltas) + [delta] && stateTime == old(stateTime) + delta
      ensures deltaTime == delta
      ensures calls == old(calls) + FrameCalls(stateTime, delta)
      ensures contactLog == old(contactLog) + step.contacts
      ensures counting == (old(counting) && NoEndingContact(step.contacts, pigeonBody))
      ensures pigeonBody.State() == Clamped(step.pigeon)
      ensures pigeonBody.forces == InputForces(input, step.pigeon)
      ensures pigeonBody.active == old(pigeonBody.active) && pigeonBody.filter == old(pigeonBody.filter)
    {
      deltaTime := delta;
      stateTime := stateTime + delta;
      deltas := deltas + [delta];
      assert deltas[..|deltas| - 1] == old(deltas);
      calls := calls + [RenderBackground, RenderScore, RenderDodgeables(stateTime), RenderPigeon(stateTime)];
      Update(step, input);
    }

    /** The second half of a frame: step, collaborator updates, input, clamp. */
    method Update(step: StepOutcome, input: Input)
      requires counting == NoEndingContact(contactLog, pigeonBody)
      modifies this, pigeonBody
      ensures stateTime == old(stateTime) && deltaTime == old(deltaTime) && deltas == old(deltas)
      ensures calls == old(calls) + [StepWorld, UpdateBackground(deltaTime), UpdateScore(deltaTime),
                                     UpdateDodgeables(stateTime), ProcessInput, KeepInBounds]
      ensures contactLog == old(contactLog) + step.contacts
      ensures counting == NoEndingContact(contactLog, pigeonBody)
      ensures counting == (old(counting) && NoEndingContact(step.contacts, pigeonBody))
      ensures pigeonBody.State() == Clamped(step.pigeon)
      ensures pigeonBody.forces == InputForces(input, step.pigeon)
      ensures pigeonBody.active == old(pigeonBody.active) && pigeonBody.filter == old(pigeonBody.filter)
    {
      WorldStep(step);
      calls := calls + [UpdateBackground(deltaTime), UpdateScore(deltaTime), UpdateDodgeables(stateTime)];
      ApplyInput(input);
      ConfineToViewport();
    }

    /**
     * The world step: the pigeon takes its integrated state and the engine
     * delivers each contact callback to the listener, in order.
     */
    method WorldStep(step: StepOutcome)
      requires counting == NoEndingContact(contactLog, pigeonBody)
      modifies this, pigeonBody
      ensures stateTime == old(stateTime) && deltaTime == old(deltaTime) && deltas == old(deltas)
      ensures calls == old(calls) + [StepWorld]
      ensures contactLog == old(contactLog) + step.contacts
      ensures counting == NoEndingContact(contactLog, pigeonBody)
      ensures counting == (old(counting) && NoEndingContact(step.contacts, pigeonBody))
      ensures pigeonBody.State() == step.pigeon && pigeonBody.forces == []
      ensures pigeonBody.active == old(pigeonBody.active) && pigeonBody.filter == old(pigeonBody.filter)
    {
      calls := calls + [StepWorld];
      pigeonBody.StepTo(step.pigeon);
      var i := 0;
      while i < |step.contacts|
        invariant 0 <= i <= |step.contacts|
        invariant contactLog == old(contactLog) + step.contacts[..i]
        invariant counting == NoEndingContact(contactLog, pigeonBody)
        invariant counting == (old(counting) && NoEndingContact(step.contacts[..i], pigeonBody))
        invariant stateTime == old(stateTime) && deltaTime == old(deltaTime) && deltas == old(deltas)
        invariant calls == old(calls) + [StepWorld]
        invariant pigeonBody.State() == step.pigeon && pigeonBody.forces == []
        invariant pigeonBody.active == old(pigeonBody.active) && pigeonBody.filter == old(pigeonBody.filter)
      {
        var e := step.contacts[i];
        OnContact(e);
        NoEndingContactSnoc(contactLog, e, pigeonBody);
        NoEndingContactSnoc(step.contacts[..i], e, pigeonBody);
        contactLog := contactLog + [e];
        assert step.contacts[..i + 1] == step.contacts[..i] + [e];
        i := i + 1;
      }
      assert step.contacts[..i] == step.contacts;
    }

    /**
     * The contact listener: a begin-contact ends the game when the pigeon owns
     * either fixture; end-contact, pre-solve and post-solve do nothing.
     */
    method OnContact(e: ContactEvent)
      modifies this`counting
      ensures counting == (old(counting) && !EndsGame(e, pigeonBody))
    {
      match e.kind
      case BeginContact =>
        if e.bodyA == pigeonBody || e.bodyB == pigeonBody {
          GameOver();
        }
      case EndContact =>
      case PreSolve =>
      case PostSolve =>
    }

    /** Stops the high score from counting. */
    method GameOver()
      modifies this`counting
      ensures !counting
    {
      counting := false;
    }

    /** Turns the frame's input into force requests on the pigeon. */
    method ApplyInput(input: Input)
      modifies this`calls, pigeonBody`forces
      ensures calls == old(calls) + [ProcessInput]
      ensures pigeonBody.forces == old(pigeonBody.forces) + InputForces(input, pigeonBody.State())
    {
      calls := calls + [ProcessInput];
      var p := pigeonBody.State();
      ghost var f0 := pigeonBody.forces;
      ApplyTouch(input);
      ApplyKey(input.left, Vec(-KEY_FORCE, 0.0));
      ApplyKey(input.right, Vec(KEY_FORCE, 0.0));
      ApplyKey(input.up, Vec(0.0, KEY_FORCE));
      ApplyKey(input.down, Vec(0.0, -KEY_FORCE));
      assert pigeonBody.State() == p;
      assert pigeonBody.forces == f0 + InputForces(input, p) by {
        AppendFive(f0, TouchForce(input, p), KeyForce(input.left, Vec(-KEY_FORCE, 0.0)),
          KeyForce(input.right, Vec(KEY_FORCE, 0.0)), KeyForce(input.up, Vec(0.0, KEY_FORCE)),
          KeyForce(input.down, Vec(0.0, -KEY_FORCE)));
      }
    }

    /** The touch request, when the screen is touched. */
    method ApplyTouch(input: Input)
      modifies pigeonBody`forces
      ensures pigeonBody.forces == old(pigeonBody.forces) + TouchForce(input, pigeonBody.State())
    {
      if input.touched {
        var p := pigeonBody.State();
        pigeonBody.ApplyForceToCenter(Vec(TOUCH_GAIN * (input.touchX - p.x), TOUCH_GAIN * (input.touchY - p.y)));
      }
    }

    /** One arrow key: requests `f` when the key is held. */
    method ApplyKey(held: bool, f: Vec)
      modifies pigeonBody`forces
      ensures pigeonBody.forces == old(pigeonBody.forces) + KeyForce(held, f)
    {
      if held { pigeonBody.ApplyForceToCenter(f); }
    }

    /** Keeps the pigeon inside the viewport with the four wall checks. */
    method ConfineToViewport()
      modifies this`calls, pigeonBody`x, pigeonBody`y, pigeonBody`vx, pigeonBody`vy, pigeonBody`angle
      ensures calls == old(calls) + [KeepInBounds]
      ensures pigeonBody.State() == Clamped(old(pigeonBody.State()))
      ensures InBounds(pigeonBody.State())
    {
      calls := calls + [KeepInBounds];
      if pigeonBody.x < 0.0 {
        pigeonBody.SetLinearVelocity(0.0, pigeonBody.vy);
        pigeonBody.SetTransform(0.0, pigeonBody.y, pigeonBody.angle);
      }
      if pigeonBody.x > MAX_X {
        pigeonBody.SetLinearVelocity(0.0, pigeonBody.vy);
        pigeonBody.SetTransform(MAX_X, pigeonBody.y, pigeonBody.angle);
      }
      if pigeonBody.y < 0.0 {
        pigeonBody.SetLinearVelocity(pigeonBody.vx, 0.0);
        pigeonBody.SetTransform(pigeonBody.x, 0.0, pigeonBody.angle);
      }
      if pigeonBody.y > MAX_Y {
        pigeonBody.SetLinearVelocity(pigeonBody.vx, 0.0);
        pigeonBody.SetTransform(pigeonBody.x, MAX_Y, pigeonBody.angle);
      }
    }
  }
}
