/** Manual (keyboard) control: the ManualDroneController object of the
    camera-window simulations, the single-key mappers that drive it, and the
    held-key mapper of the tkinter and pynput scripts. */
module ManualControl {
  import opened Link
  import opened Profiles

  // Key codes delivered by cv2.waitKey(1) & 0xFF.
  const KeyW: int := 119         // ord('w')
  const KeyS: int := 115         // ord('s')
  const KeyA: int := 97          // ord('a')
  const KeyD: int := 100         // ord('d')
  const ArrowLeft: int := 81
  const ArrowUp: int := 82
  const ArrowRight: int := 83
  const ArrowDown: int := 84

  /** The keyboard controller of the camera-window simulations
      (elevatexy_simulation.py; elevatexy_simulation_arm.py has the same class
      without the two yaw setters). */
  class ManualDroneController {
    var vehicle: Vehicle?
    var flightMode: string
    var vx: real
    var vy: real
    var vz: real
    var yawRateCmd: real
    var moveSpeed: real
    var verticalSpeed: real
    var yawRate: real      // deg/s: np.degrees of the profile's rad/s value

    /** The speeds always match the flight mode, unknown names reading as standard. */
    ghost predicate Valid()
      reads this
    {
      var p := SimProfile(flightMode);
      moveSpeed == p.groundSpeed && verticalSpeed == p.verticalSpeed && yawRate == Degrees(p.yawRate)
    }

    /** The command vector the controller holds. */
    function Command(): Velocity
      reads this
    {
      Velocity(vx, vy, vz, yawRateCmd)
    }

    constructor (vehicle: Vehicle?, flightMode: string)
      ensures Valid()
      ensures this.vehicle == vehicle && this.flightMode == flightMode
      ensures Command() == Stopped
    {
      this.vehicle := vehicle;
      this.flightMode := flightMode;
      vx, vy, vz, yawRateCmd := 0.0, 0.0, 0.0, 0.0;
      var p := SimProfile(flightMode);
      moveSpeed, verticalSpeed, yawRate := p.groundSpeed, p.verticalSpeed, Degrees(p.yawRate);
    }

    /** update_speeds: eco and performance install their triple, every other name standard. */
    method UpdateSpeeds()
      modifies this`moveSpeed, this`verticalSpeed, this`yawRate
      ensures Valid()
    {
      if flightMode == "eco" {
        moveSpeed, verticalSpeed, yawRate := SimEco.groundSpeed, SimEco.verticalSpeed, Degrees(SimEco.yawRate);
      } else if flightMode == "performance" {
        moveSpeed, verticalSpeed, yawRate :=
          SimPerformance.groundSpeed, SimPerformance.verticalSpeed, Degrees(SimPerformance.yawRate);
      } else {
        moveSpeed, verticalSpeed, yawRate :=
          SimStandard.groundSpeed, SimStandard.verticalSpeed, Degrees(SimStandard.yawRate);
      }
    }

    /** set_flight_mode: stores the name unvalidated and re-derives the speeds. */
    method SetFlightMode(mode: string)
      modifies this`flightMode, this`moveSpeed, this`verticalSpeed, this`yawRate
      ensures flightMode == mode && Valid()
      ensures moveSpeed == SimProfile(mode).groundSpeed && verticalSpeed == SimProfile(mode).verticalSpeed
    {
      flightMode := mode;
      UpdateSpeeds();
    }

    method SetForward(speed: real)
      modifies this`vx
      ensures vx == speed
    {
      vx := speed;
    }

    method SetBackward(speed: real)
      modifies this`vx
      ensures vx == -speed
    {
      vx := -speed;
    }

    method SetLeft(speed: real)
      modifies this`vy
      ensures vy == -speed
    {
      vy := -speed;
    }

    method SetRight(speed: real)
      modifies this`vy
      ensures vy == speed
    {
      vy := speed;
    }

    method SetUp(speed: real)
      modifies this`vz
      ensures vz == -speed
    {
      vz := -speed;
    }

    method SetDown(speed: real)
      modifies this`vz
      ensures vz == speed
    {
      vz := speed;
    }

    method SetYawLeft(rate: real)
      modifies this`yawRateCmd
      ensures yawRateCmd == -Radians(rate)
    {
      yawRateCmd := -Radians(rate);
    }

    method SetYawRight(rate: real)
      modifies this`yawRateCmd
      ensures yawRateCmd == Radians(rate)
    {
      yawRateCmd := Radians(rate);
    }

    method StopAll()
      modifies this`vx, this`vy, this`vz, this`yawRateCmd
      ensures Command() == Stopped
    {
      vx, vy, vz, yawRateCmd := 0.0, 0.0, 0.0, 0.0;
    }

    /** send_command: the held vector goes out only to a present, armed vehicle. */
    method SendCommand()
      modifies vehicle
      ensures vehicle != null ==> vehicle.sent == old(vehicle.sent) + Gated(old(vehicle.armed), Command())
      ensures vehicle != null ==> vehicle.armed == old(vehicle.armed)
    {
      if vehicle == null || !vehicle.armed {
        return;
      }
      vehicle.Send(VelocityTarget(Command()));
    }
  }

  /** The vector handle_manual_control of elevatexy_simulation.py leaves in the
      controller: stop_all, then at most one setter chosen by the key. */
  function SimKeyCommand(key: int, moveSpeed: real, verticalSpeed: real, yawRateDeg: real): (r: Velocity)
    ensures NonzeroAxes(r) <= 1
    ensures r.vx == 0.0 || r.vx == moveSpeed || r.vx == -moveSpeed
    ensures r.vy == 0.0 || r.vy == moveSpeed || r.vy == -moveSpeed
    ensures r.vz == 0.0 || r.vz == verticalSpeed || r.vz == -verticalSpeed
    ensures r.yawRate == 0.0 || r.yawRate == Radians(yawRateDeg) || r.yawRate == -Radians(yawRateDeg)
    ensures moveSpeed > 0.0 && verticalSpeed > 0.0 && yawRateDeg > 0.0 ==>
              (r.vx > 0.0 <==> key == KeyW) && (r.vx < 0.0 <==> key == KeyS)
              && (r.vy < 0.0 <==> key == KeyA) && (r.vy > 0.0 <==> key == KeyD)
              && (r.vz < 0.0 <==> key == ArrowUp) && (r.vz > 0.0 <==> key == ArrowDown)
              && (r.yawRate < 0.0 <==> key == ArrowLeft) && (r.yawRate > 0.0 <==> key == ArrowRight)
  {
    if key == KeyW then Velocity(moveSpeed, 0.0, 0.0, 0.0)
    else if key == KeyS then Velocity(-moveSpeed, 0.0, 0.0, 0.0)
    else if key == KeyA then Velocity(0.0, -moveSpeed, 0.0, 0.0)
    else if key == KeyD then Velocity(0.0, moveSpeed, 0.0, 0.0)
    else if key == ArrowUp then Velocity(0.0, 0.0, -verticalSpeed, 0.0)
    else if key == ArrowDown then Velocity(0.0, 0.0, verticalSpeed, 0.0)
    else if key == ArrowLeft then Velocity(0.0, 0.0, 0.0, -Radians(yawRateDeg))
    else if key == ArrowRight then Velocity(0.0, 0.0, 0.0, Radians(yawRateDeg))
    else Stopped
  }

  /** The vector handle_manual_control of elevatexy_simulation_arm.py leaves:
      only w, a, d and the up/down arrows act, so 's' and the yaw arrows stop
      the drone; this variant can neither reverse nor yaw. */
  function ArmKeyCommand(key: int, moveSpeed: real, verticalSpeed: real): (r: Velocity)
    ensures NonzeroAxes(r) <= 1
    ensures r.yawRate == 0.0
    ensures key == KeyS || key == ArrowLeft || key == ArrowRight ==> r == Stopped
    ensures moveSpeed >= 0.0 ==> r.vx >= 0.0
    ensures moveSpeed > 0.0 && verticalSpeed > 0.0 ==>
              (r.vx > 0.0 <==> key == KeyW)
              && (r.vy < 0.0 <==> key == KeyA) && (r.vy > 0.0 <==> key == KeyD)
              && (r.vz < 0.0 <==> key == ArrowUp) && (r.vz > 0.0 <==> key == ArrowDown)
  {
    if key == KeyW then Velocity(moveSpeed, 0.0, 0.0, 0.0)
    else if key == KeyA then Velocity(0.0, -moveSpeed, 0.0, 0.0)
    else if key == KeyD then Velocity(0.0, moveSpeed, 0.0, 0.0)
    else if key == ArrowUp then Velocity(0.0, 0.0, -verticalSpeed, 0.0)
    else if key == ArrowDown then Velocity(0.0, 0.0, verticalSpeed, 0.0)
    else Stopped
  }

  /** Which of the eight movement keys are held (tkinter: keyboard_state,
      pynput: keys_pressed). */
  datatype HeldKeys = HeldKeys(
    forward: bool, backward: bool,    // w, s
    left: bool, right: bool,          // a, d
    up: bool, down: bool,             // q, e
    yawLeft: bool, yawRight: bool)    // Left/left, Right/right

  const NoKeys: HeldKeys := HeldKeys(false, false, false, false, false, false, false, false)

  /** The held-key mapper as a whole: each axis is signed by the key of its
      pair whose `if` comes last (s over w, d over a, e over q, right over left);
      there is no cancellation of opposing keys. */
  function HeldVelocity(h: HeldKeys, moveSpeed: real, verticalSpeed: real, yawRad: real): Velocity
  {
    Velocity(
      if h.backward then -moveSpeed else if h.forward then moveSpeed else 0.0,
      if h.right then moveSpeed else if h.left then -moveSpeed else 0.0,
      if h.down then verticalSpeed else if h.up then -verticalSpeed else 0.0,
      if h.yawRight then yawRad else if h.yawLeft then -yawRad else 0.0)
  }

  /** Whatever keys are held, every axis stays within its rate. */
  lemma HeldVelocityBounded(h: HeldKeys, moveSpeed: real, verticalSpeed: real, yawRad: real)
    requires moveSpeed >= 0.0 && verticalSpeed >= 0.0 && yawRad >= 0.0
    ensures var r := HeldVelocity(h, moveSpeed, verticalSpeed, yawRad);
            -moveSpeed <= r.vx <= moveSpeed && -moveSpeed <= r.vy <= moveSpeed
            && -verticalSpeed <= r.vz <= verticalSpeed && -yawRad <= r.yawRate <= yawRad
  {
  }

  /** Both keys of a pair held: the key whose `if` comes later wins, the axis is not zero. */
  lemma OpposingKeysLastWins(h: HeldKeys, moveSpeed: real, verticalSpeed: real, yawRad: real)
    ensures var r := HeldVelocity(h, moveSpeed, verticalSpeed, yawRad);
            (h.forward && h.backward ==> r.vx == -moveSpeed)
            && (h.left && h.right ==> r.vy == moveSpeed)
            && (h.up && h.down ==> r.vz == verticalSpeed)
            && (h.yawLeft && h.yawRight ==> r.yawRate == yawRad)
  {
  }

  /** No movement key held: all four axes are zero; a single key moves one axis. */
  lemma HeldVelocityAxes(h: HeldKeys, moveSpeed: real, verticalSpeed: real, yawRad: real)
    ensures HeldVelocity(NoKeys, moveSpeed, verticalSpeed, yawRad) == Stopped
    ensures HeldVelocity(NoKeys.(forward := true), moveSpeed, verticalSpeed, yawRad)
            == Velocity(moveSpeed, 0.0, 0.0, 0.0)
    ensures var r := HeldVelocity(h, moveSpeed, verticalSpeed, yawRad);
            (!h.forward && !h.backward ==> r.vx == 0.0) && (!h.left && !h.right ==> r.vy == 0.0)
            && (!h.up && !h.down ==> r.vz == 0.0) && (!h.yawLeft && !h.yawRight ==> r.yawRate == 0.0)
  {
  }

  /** One key of a pair held without its opposite: that axis is the key's
      signed rate, whatever the other pairs hold. */
  lemma SingleKeyOfPair(h: HeldKeys, moveSpeed: real, verticalSpeed: real, yawRad: real)
    ensures var r := HeldVelocity(h, moveSpeed, verticalSpeed, yawRad);
            (h.forward && !h.backward ==> r.vx == moveSpeed)
            && (h.backward && !h.forward ==> r.vx == -moveSpeed)
            && (h.left && !h.right ==> r.vy == -moveSpeed)
            && (h.right && !h.left ==> r.vy == moveSpeed)
            && (h.up && !h.down ==> r.vz == -verticalSpeed)
            && (h.down && !h.up ==> r.vz == verticalSpeed)
            && (h.yawLeft && !h.yawRight ==> r.yawRate == -yawRad)
            && (h.yawRight && !h.yawLeft ==> r.yawRate == yawRad)
  {
  }
}
