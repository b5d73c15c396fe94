/** The session object of elevatexy_sim_tkinter.py.  Key events update a
    keysym -> pressed map; the held movement keys (or, in autonomous mode, the
    face's zone) set the current_* vector, and a background loop streams that
    vector to an armed vehicle at 10 Hz. */
module TkinterControl {
  import opened Link
  import opened Grid
  import opened Profiles
  import opened Tracking
  import opened ManualControl

  /** The keysyms key_release treats as movement keys. */
  const MovementKeys: seq<string> := ["w", "a", "s", "d", "q", "e", "Up", "Down", "Left", "Right"]

  /** keyboard_state.get(k, False). */
  function IsDown(state: map<string, bool>, k: string): bool
  {
    k in state && state[k]
  }

  /** The movement keys process_manual_control reads, as a HeldKeys record. */
  function HeldOf(state: map<string, bool>): (h: HeldKeys)
    ensures h.forward == IsDown(state, "w") && h.backward == IsDown(state, "s")
    ensures h.left == IsDown(state, "a") && h.right == IsDown(state, "d")
    ensures h.up == IsDown(state, "q") && h.down == IsDown(state, "e")
    ensures h.yawLeft == IsDown(state, "Left") && h.yawRight == IsDown(state, "Right")
  {
    HeldKeys(IsDown(state, "w"), IsDown(state, "s"), IsDown(state, "a"), IsDown(state, "d"),
             IsDown(state, "q"), IsDown(state, "e"), IsDown(state, "Left"), IsDown(state, "Right"))
  }

  /** Some movement key is down. */
  predicate AnyMovementDown(state: map<string, bool>)
  {
    exists i :: 0 <= i < |MovementKeys| && IsDown(state, MovementKeys[i])
  }

  /** When no movement key is down the held-key vector is zero, so the
      stop_movement of key_release agrees with re-running the mapper. */
  lemma NoMovementKeyMeansStopped(state: map<string, bool>, g: real, v: real, yaw: real)
    requires !AnyMovementDown(state)
    ensures HeldVelocity(HeldOf(state), g, v, yaw) == Stopped
  {
    assert !IsDown(state, MovementKeys[0]) && !IsDown(state, MovementKeys[1]);
    assert !IsDown(state, MovementKeys[2]) && !IsDown(state, MovementKeys[3]);
    assert !IsDown(state, MovementKeys[4]) && !IsDown(state, MovementKeys[5]);
    assert !IsDown(state, MovementKeys[8]) && !IsDown(state, MovementKeys[9]);
  }

  class TkinterSimulation {
    var vehicle: Vehicle?
    var flightMode: string
    var moveSpeed: real
    var verticalSpeed: real
    var yawRate: real                 // deg/s
    var autonomousEnabled: bool
    var keyboardState: map<string, bool>
    var commandActive: bool
    var currentVx: real
    var currentVy: real
    var currentVz: real
    var currentYaw: real              // rad/s
    var faceDetected: bool
    var faceZone: Zone
    var faceCenter: (int, int)

    /** The flight mode is one of the three names and the speeds are its triple. */
    ghost predicate Valid()
      reads this
    {
      IsProfileName(flightMode)
      && moveSpeed == TkProfile(flightMode).groundSpeed
      && verticalSpeed == TkProfile(flightMode).verticalSpeed
      && yawRate == TkProfile(flightMode).yawRate
    }

    /** The vector the command loop streams. */
    function Current(): Velocity
      reads this
    {
      Velocity(currentVx, currentVy, currentVz, currentYaw)
    }

    /** What the held keys ask for at the session's speeds. */
    function HeldCommand(): Velocity
      reads this
    {
      HeldVelocity(HeldOf(keyboardState), moveSpeed, verticalSpeed, Radians(yawRate))
    }

    constructor (vehicle: Vehicle?)
      ensures Valid()
      ensures this.vehicle == vehicle && flightMode == "standard"
      ensures !autonomousEnabled && !commandActive && keyboardState == map[]
      ensures Current() == Stopped && !faceDetected && faceZone == Center
    {
      this.vehicle := vehicle;
      flightMode := "standard";
      moveSpeed, verticalSpeed, yawRate := TkStandard.groundSpeed, TkStandard.verticalSpeed, TkStandard.yawRate;
      autonomousEnabled := false;
      keyboardState := map[];
      commandActive := false;
      currentVx, currentVy, currentVz, currentYaw := 0.0, 0.0, 0.0, 0.0;
      faceDetected := false;
      faceZone := Center;
      faceCenter := (FrameWidth / 2, FrameHeight / 2);
    }

    /** update_speeds: eco and performance install their triple, every other name standard. */
    method UpdateSpeeds()
      modifies this`moveSpeed, this`verticalSpeed, this`yawRate
      ensures moveSpeed == TkProfile(flightMode).groundSpeed
      ensures verticalSpeed == TkProfile(flightMode).verticalSpeed
      ensures yawRate == TkProfile(flightMode).yawRate
    {
      if flightMode == "eco" {
        moveSpeed, verticalSpeed, yawRate := TkEco.groundSpeed, TkEco.verticalSpeed, TkEco.yawRate;
      } else if flightMode == "performance" {
        moveSpeed, verticalSpeed, yawRate := TkPerformance.groundSpeed, TkPerformance.verticalSpeed, TkPerformance.yawRate;
      } else {
        moveSpeed, verticalSpeed, yawRate := TkStandard.groundSpeed, TkStandard.verticalSpeed, TkStandard.yawRate;
      }
    }

    /** set_velocity: only the shared vector changes; nothing is sent here.
        The four writes happen as one step (the source holds no lock). */
    method SetVelocity(v: Velocity)
      modifies this`currentVx, this`currentVy, this`currentVz, this`currentYaw
      ensures Current() == v
    {
      currentVx, currentVy, currentVz, currentYaw := v.vx, v.vy, v.vz, v.yawRate;
    }

    method StopMovement()
      modifies this`currentVx, this`currentVy, this`currentVz, this`currentYaw
      ensures Current() == Stopped
    {
      SetVelocity(Stopped);
    }

    /** start_command_sender (the thread itself is one CommandLoopIteration per tick). */
    method StartCommandSender()
      modifies this`commandActive
      ensures commandActive
    {
      commandActive := true;
    }

    /** One tick of _command_loop: while active, the current vector goes to a
        present, armed vehicle; `linkOk` is false when send_mavlink raises, in
        which case nothing goes out and the loop carries on. */
    method CommandLoopIteration(linkOk: bool) returns (continues: bool)
      modifies vehicle
      ensures continues == commandActive
      ensures vehicle != null ==> vehicle.armed == old(vehicle.armed)
      ensures vehicle != null ==>
                vehicle.sent == old(vehicle.sent)
                  + (if commandActive && linkOk then Gated(old(vehicle.armed), Current()) else [])
    {
      continues := commandActive;
      if commandActive && vehicle != null && vehicle.armed && linkOk {
        vehicle.Send(VelocityTarget(Current()));
      }
    }

    /** process_manual_control: with a present, armed vehicle the vector is
        rebuilt from the held keys by a chain of independent tests (the later
        key of a pair overriding the earlier); otherwise nothing changes. */
    method ProcessManualControl()
      modifies this`currentVx, this`currentVy, this`currentVz, this`currentYaw
      ensures vehicle != null && vehicle.armed ==> Current() == HeldCommand()
      ensures !(vehicle != null && vehicle.armed) ==> Current() == old(Current())
    {
      if vehicle == null || !vehicle.armed {
        return;
      }
      var vx, vy, vz, yaw := 0.0, 0.0, 0.0, 0.0;
      if IsDown(keyboardState, "w") {
        vx := moveSpeed;
      }
      if IsDown(keyboardState, "s") {
        vx := -moveSpeed;
      }
      if IsDown(keyboardState, "a") {
        vy := -moveSpeed;
      }
      if IsDown(keyboardState, "d") {
        vy := moveSpeed;
      }
      if IsDown(keyboardState, "q") {
        vz := -verticalSpeed;
      }
      if IsDown(keyboardState, "e") {
        vz := verticalSpeed;
      }
      if IsDown(keyboardState, "Left") {
        yaw := -Radians(yawRate);
      }
      if IsDown(keyboardState, "Right") {
        yaw := Radians(yawRate);
      }
      SetVelocity(Velocity(vx, vy, vz, yaw));
    }

    /** key_press: record the key, act on space / 1 / 2 / 3 / t / l / r, and
        then, in manual mode, rebuild the vector from the held keys.  Leaving
        autonomous mode zeroes the vector first; landing or RTL (with a
        vehicle) also leaves autonomous mode. */
    method KeyPress(key: string)
      requires Valid()
      modifies this`keyboardState, this`autonomousEnabled, this`flightMode,
               this`moveSpeed, this`verticalSpeed, this`yawRate,
               this`currentVx, this`currentVy, this`currentVz, this`currentYaw
      ensures Valid()
      ensures keyboardState == old(keyboardState)[key := true]
      ensures autonomousEnabled == (if key == "space" then !old(autonomousEnabled)
                                    else if (key == "l" || key == "r") && vehicle != null then false
                                    else old(autonomousEnabled))
      ensures flightMode == (if key == "1" then "eco" else if key == "2" then "standard"
                             else if key == "3" then "performance" else old(flightMode))
      ensures Current() == (if !autonomousEnabled && vehicle != null && vehicle.armed then HeldCommand()
                            else if key == "space" && old(autonomousEnabled) then Stopped
                            else old(Current()))
    {
      keyboardState := keyboardState[key := true];
      if key == "space" {
        autonomousEnabled := !autonomousEnabled;
        if !autonomousEnabled {
          StopMovement();
        }
      } else if key == "1" {
        flightMode := "eco";
        UpdateSpeeds();
      } else if key == "2" {
        flightMode := "standard";
        UpdateSpeeds();
      } else if key == "3" {
        flightMode := "performance";
        UpdateSpeeds();
      } else if key == "t" && vehicle != null {
        // simple_takeoff on an armed vehicle: not part of this model
      } else if key == "l" && vehicle != null {
        // the LAND mode change is not part of this model
        autonomousEnabled := false;
      } else if key == "r" && vehicle != null {
        // the RTL mode change is not part of this model
        autonomousEnabled := false;
      }
      if !autonomousEnabled {
        ProcessManualControl();
      }
    }

    /** The `any(...)` of key_release: is some movement key still down? */
    method AnyMovementKeyDown() returns (down: bool)
      ensures down <==> AnyMovementDown(keyboardState)
    {
      var i := 0;
      while i < |MovementKeys|
        invariant 0 <= i <= |MovementKeys|
        invariant forall j :: 0 <= j < i ==> !IsDown(keyboardState, MovementKeys[j])
      {
        if IsDown(keyboardState, MovementKeys[i]) {
          return true;
        }
        i := i + 1;
      }
      return false;
    }

    /** key_release: mark a recorded key released; in manual mode releasing a
        movement key stops the drone only when no movement key is left down.
        The vector is not rebuilt, so releasing one of two held keys leaves
        its axis moving. */
    method KeyRelease(key: string)
      modifies this`keyboardState, this`currentVx, this`currentVy, this`currentVz, this`currentYaw
      ensures keyboardState == if key in old(keyboardState) then old(keyboardState)[key := false] else old(keyboardState)
      ensures Current() == (if !autonomousEnabled && key in MovementKeys && !AnyMovementDown(keyboardState) then Stopped
                            else old(Current()))
    {
      if key in keyboardState {
        keyboardState := keyboardState[key := false];
      }
      if !autonomousEnabled && key in MovementKeys {
        var down := AnyMovementKeyDown();
        if !down {
          StopMovement();
        }
      }
    }

    /** detect_face, with the detector's result as input. */
    method DetectFace(faceFound: bool, center: (int, int))
      modifies this`faceDetected, this`faceZone, this`faceCenter
      ensures faceDetected == faceFound
      ensures faceFound ==> faceCenter == center && faceZone == Classify(FrameWidth, FrameHeight, center.0, center.1)
      ensures !faceFound ==> faceCenter == old(faceCenter) && faceZone == old(faceZone)
    {
      if faceFound {
        faceCenter := center;
        faceZone := GetFaceZone(FrameWidth, FrameHeight, center.0, center.1);
        faceDetected := true;
      } else {
        faceDetected := false;
      }
    }

    /** calculate_autonomous_commands: the zone mapper without dead zones. */
    method CalculateAutonomousCommands()
      modifies this`currentVx, this`currentVy, this`currentVz, this`currentYaw
      ensures Current() == ZoneCommand(faceDetected, faceZone, moveSpeed, verticalSpeed)
    {
      if !faceDetected || faceZone == Center {
        StopMovement();
        return;
      }
      var vy, vz := 0.0, 0.0;
      if LeftZone(faceZone) {
        vy := -moveSpeed;
      } else if RightZone(faceZone) {
        vy := moveSpeed;
      }
      if TopZone(faceZone) {
        vz := -verticalSpeed;
      } else if BottomZone(faceZone) {
        vz := verticalSpeed;
      }
      SetVelocity(Velocity(0.0, vy, vz, 0.0));
    }

    /** The body of camera_loop for one frame: in autonomous mode, detect and
        re-aim; in manual mode the frame changes nothing. */
    method CameraStep(faceFound: bool, center: (int, int))
      modifies this`faceDetected, this`faceZone, this`faceCenter,
               this`currentVx, this`currentVy, this`currentVz, this`currentYaw
      ensures autonomousEnabled ==>
                Current() == ZoneCommand(faceFound, Classify(FrameWidth, FrameHeight, center.0, center.1), moveSpeed, verticalSpeed)
      ensures !autonomousEnabled ==> Current() == old(Current()) && faceDetected == old(faceDetected)
    {
      if autonomousEnabled {
        DetectFace(faceFound, center);
        CalculateAutonomousCommands();
      }
    }

    /** cleanup: the command loop is told to stop and, with a vehicle, the
        vector is zeroed (nothing more is sent once the loop has stopped). */
    method Cleanup()
      modifies this`commandActive, this`currentVx, this`currentVy, this`currentVz, this`currentYaw
      ensures !commandActive
      ensures vehicle != null ==> Current() == Stopped
      ensures vehicle == null ==> Current() == old(Current())
    {
      commandActive := false;
      if vehicle != null {
        StopMovement();
      }
    }
  }

  /** Standard mode, armed, manual: pressing w streams (3.0, 0, 0, 0). */
  method ForwardScenario() returns (v: Velocity)
    ensures v == Velocity(3.0, 0.0, 0.0, 0.0)
  {
    var drone := new Vehicle(true);
    var session := new TkinterSimulation(drone);
    session.KeyPress("w");
    v := session.Current();
  }

  /** Armed, manual: hold w and a, release w.  The vector keeps its forward
      component although only a is held, since key_release does not re-run
      the held-key mapper while a movement key is still down. */
  method ReleaseKeepsStaleAxis() returns (streamed: Velocity, held: Velocity)
    ensures streamed == Velocity(3.0, -3.0, 0.0, 0.0)
    ensures held == Velocity(0.0, -3.0, 0.0, 0.0)
  {
    var session := PressForwardAndLeft();
    assert MovementKeys[0] == "w" && MovementKeys[1] == "a";
    session.KeyRelease("w");
    assert session.keyboardState == map["w" := false, "a" := true];
    assert IsDown(session.keyboardState, MovementKeys[1]);
    streamed := session.Current();
    held := session.HeldCommand();
  }

  /** A fresh armed session in standard, manual mode after pressing w, then a. */
  method PressForwardAndLeft() returns (session: TkinterSimulation)
    ensures fresh(session) && session.Valid() && session.flightMode == "standard"
    ensures session.vehicle != null && session.vehicle.armed && !session.autonomousEnabled
    ensures session.keyboardState == map["w" := true, "a" := true]
    ensures session.Current() == Velocity(3.0, -3.0, 0.0, 0.0)
  {
    var drone := new Vehicle(true);
    session := new TkinterSimulation(drone);
    session.KeyPress("w");
    session.KeyPress("a");
  }

  /** Autonomous mode with the face in the centre cell streams zero. */
  method CentredFaceScenario() returns (v: Velocity)
    ensures v == Stopped
  {
    var drone := new Vehicle(true);
    var session := new TkinterSimulation(drone);
    session.KeyPress("space");
    session.CameraStep(true, (FrameWidth / 2, FrameHeight / 2));
    v := session.Current();
  }
}
