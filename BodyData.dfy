/**
 * Per-body metadata that the physics engine does not own: the delete flag,
 * spawn time and the payloads of teleports, rockets, UFOs and power-ups.
 */
module Resources {

  datatype Option<T> = None | Some(value: T)

  /** A Java `long`. */
  newtype Long = x: int | -0x8000_0000_0000_0000 <= x < 0x8000_0000_0000_0000

  /** A Java `int`. */
  newtype Int32 = x: int | -0x8000_0000 <= x < 0x8000_0000

  /** A teleport dodgeable; only its identity matters here. */
  class Teleport { }

  /** A UFO dodgeable; only its identity matters here. */
  class UFO { }

  const DEFAULT_SPAWN_TIME: Long := 9999
  const DEFAULT_EXPLOSION_TIME: Long := 99999

  /** Every field of a BodyData, as one value, so that a setter can state the whole new record. */
  datatype Fields = Fields(
    flaggedForDelete: Option<bool>,
    spawnTime: Long,
    oppositeTeleport: Teleport?,
    rocketYForce: real,
    lastRocketExplosionTime: Long,
    energyBeamDirection: real,
    ufo: UFO?,
    powerUpType: Int32)

  /**
   * The vertical force given to a rocket with the given torque: a gentler
   * affine rule when it spawns in the bottom half of the screen, a steeper one
   * otherwise.
   */
  function RocketYForce(torque: real, spawnedInBottomHalf: bool): (f: real)
    ensures torque >= 0.0 ==> f <= -0.2
    ensures torque >= 0.0 && !spawnedInBottomHalf ==> f <= -0.6
  {
    if spawnedInBottomHalf then -0.2 * torque - 0.2 else -0.3 * torque - 0.6
  }

  /** For one unit of torque the two halves give -0.4 and -0.9. */
  lemma RocketYForceAtUnitTorque()
    ensures RocketYForce(1.0, true) == -0.4
    ensures RocketYForce(1.0, false) == -0.9
  {
  }

  /** For non-negative torque a rocket from the top half is pushed down harder than one from the bottom half. */
  lemma RocketYForceTopSteeper(torque: real)
    requires torque >= 0.0
    ensures RocketYForce(torque, false) < RocketYForce(torque, true) < 0.0
  {
  }

  class BodyData {
    /** Tri-state: `None` stands for a Java null. */
    var flaggedForDelete: Option<bool>
    var spawnTime: Long
    var oppositeTeleport: Teleport?
    var rocketYForce: real
    var lastRocketExplosionTime: Long
    var energyBeamDirection: real
    var ufo: UFO?
    /** Written directly by the code that owns the power-up; there is no setter. */
    var powerUpType: Int32

    function AllFields(): Fields
      reads this
    {
      Fields(flaggedForDelete, spawnTime, oppositeTeleport, rocketYForce,
             lastRocketExplosionTime, energyBeamDirection, ufo, powerUpType)
    }

    /** The flag as the game reads it: an unset flag reads as false. */
    function IsFlaggedForDelete(): (b: bool)
      reads this
      ensures b <==> flaggedForDelete == Some(true)
      ensures flaggedForDelete == None ==> !b
    {
      match flaggedForDelete
      case Some(f) => f
      case None => false
    }

    function GetSpawnTime(): Long reads this { spawnTime }
    function GetOppositeTeleport(): Teleport? reads this { oppositeTeleport }
    function GetExplosionTime(): Long reads this { lastRocketExplosionTime }
    function GetRocketYForce(): real reads this { rocketYForce }
    function GetUfo(): UFO? reads this { ufo }
    function GetEnergyBeamDirection(): real reads this { energyBeamDirection }

    /** A record with the given delete flag and every other field at its default. */
    constructor (flagForDelete: bool)
      ensures AllFields() == Fields(Some(flagForDelete), DEFAULT_SPAWN_TIME, null, 0.0,
                                    DEFAULT_EXPLOSION_TIME, 0.0, null, 0)
      ensures IsFlaggedForDelete() == flagForDelete
    {
      flaggedForDelete := Some(flagForDelete);
      spawnTime := DEFAULT_SPAWN_TIME;
      oppositeTeleport := null;
      rocketYForce := 0.0;
      lastRocketExplosionTime := DEFAULT_EXPLOSION_TIME;
      energyBeamDirection := 0.0;
      ufo := null;
      powerUpType := 0;
    }

    method SetFlaggedForDelete(flag: bool)
      modifies this
      ensures AllFields() == old(AllFields()).(flaggedForDelete := Some(flag))
      ensures IsFlaggedForDelete() == flag
    {
      flaggedForDelete := Some(flag);
    }

    method SetSpawnTime(t: Long)
      modifies this
      ensures AllFields() == old(AllFields()).(spawnTime := t)
      ensures GetSpawnTime() == t
    {
      spawnTime := t;
    }

    /** Stores a non-owning reference to the paired teleport. */
    method SetOppositeTeleport(t: Teleport?)
      modifies this
      ensures AllFields() == old(AllFields()).(oppositeTeleport := t)
      ensures GetOppositeTeleport() == t
    {
      oppositeTeleport := t;
    }

    /** Overwrites the rocket's vertical force with the rule for the latest torque and spawn half. */
    method SetRocketData(torque: real, spawnedInBottomHalf: bool)
      modifies this
      ensures AllFields() == old(AllFields()).(rocketYForce := RocketYForce(torque, spawnedInBottomHalf))
      ensures GetRocketYForce() == RocketYForce(torque, spawnedInBottomHalf)
    {
      rocketYForce := RocketYForce(torque, spawnedInBottomHalf);
    }

    method SetExplosionData(t: Long)
      modifies this
      ensures AllFields() == old(AllFields()).(lastRocketExplosionTime := t)
      ensures GetExplosionTime() == t
    {
      lastRocketExplosionTime := t;
    }

    method SetUfo(u: UFO?)
      modifies this
      ensures AllFields() == old(AllFields()).(ufo := u)
      ensures GetUfo() == u
    {
      ufo := u;
    }

    method SetEnergyBeamDirection(d: real)
      modifies this
      ensures AllFields() == old(AllFields()).(energyBeamDirection := d)
      ensures GetEnergyBeamDirection() == d
    {
      energyBeamDirection := d;
    }
  }
}
