/** The command link to the vehicle, reduced to what the controller uses of it:
    the body-frame velocity record every script builds, the armed flag it reads,
    and a log of the messages it hands to the autopilot.  The wire encoding of
    SET_POSITION_TARGET_LOCAL_NED is not modelled: a send is one log entry. */
module Link {

  /** A body-frame velocity target: m/s on the three axes, rad/s for yaw. */
  datatype Velocity = Velocity(vx: real, vy: real, vz: real, yawRate: real)

  datatype Option<T> = None | Some(value: T)

  /** The all-zero command every script uses to stop (hover). */
  const Stopped: Velocity := Velocity(0.0, 0.0, 0.0, 0.0)

  /** A message handed to the autopilot. */
  datatype Message =
    | VelocityTarget(v: Velocity)                 // set_position_target_local_ned, yaw field 0
    | ArmDisarm(arm: bool, forceCode: int)        // command_long MAV_CMD_COMPONENT_ARM_DISARM

  /** The magic second parameter of MAV_CMD_COMPONENT_ARM_DISARM that skips the pre-arm checks. */
  const ForceArmCode: int := 21196
  /** param2 of the arm request dronekit's `vehicle.armed = True` setter makes:
      an ordinary, unforced arm. */
  const PlainArmCode: int := 0

  /** Counts the nonzero components of a velocity. */
  function NonzeroAxes(v: Velocity): (n: nat)
    ensures n <= 4
    ensures n == 0 <==> v == Stopped
  {
    (if v.vx != 0.0 then 1 else 0) + (if v.vy != 0.0 then 1 else 0)
    + (if v.vz != 0.0 then 1 else 0) + (if v.yawRate != 0.0 then 1 else 0)
  }

  /** The vehicle as the scripts see it: the armed flag reported by telemetry
      (written by a controller only through an arming request, whose outcome
      the autopilot decides) and the log of messages sent to it. */
  class Vehicle {
    var armed: bool
    var sent: seq<Message>

    constructor (armed: bool)
      ensures this.armed == armed && sent == []
    {
      this.armed := armed;
      sent := [];
    }

    /** send_mavlink: one message appended to the log; telemetry is untouched. */
    method Send(m: Message)
      modifies this
      ensures sent == old(sent) + [m]
      ensures armed == old(armed)
    {
      sent := sent + [m];
    }
  }

  /** What a gated send (`if not vehicle or not vehicle.armed: return`) adds to
      the log of a vehicle that is present: the message iff the vehicle is armed. */
  function Gated(armed: bool, v: Velocity): seq<Message>
  {
    if armed then [VelocityTarget(v)] else []
  }
}
