/** The session object of elevatexy_pynput.py: the same command streaming as
    the tkinter script, with a global key listener.  Keys are normalised to
    text, held keys are a set, special keys return before the movement keys
    are re-read, and every release in manual mode re-runs the held-key mapper. */
module PynputControl {
  import opened Link
  import opened Grid
  import opened Profiles
  import opened Tracking
  import opened ManualControl
  import opened Text

  /** A key event as the listener delivers it: the typed character, if any
      (key.char), and the key's printed form (str(key), e.g. "Key.space"). */
  datatype PynputKey = PynputKey(typed: Option<string>, repr: string)

  /** The key text both handlers compute: a non-empty character lower-cased,
      otherwise the printed form with every "Key." removed. */
  function KeyText(key: PynputKey): (k: string)
    ensures key.typed.Some? && key.typed.value != [] ==>
              |k| == |key.typed.value| && forall i :: 0 <= i < |k| ==> k[i] == LowerChar(key.typed.value[i])
    ensures !(key.typed.Some? && key.typed.value != []) ==> |k| <= |key.repr|
    ensures !(key.typed.Some? && key.typed.value != []) && '.' !in key.repr ==> k == key.repr
    ensures !(key.typed.Some? && key.typed.value != []) && |key.repr| >= 4 && key.repr[..4] == "Key." && '.' !in key.repr[4..] ==>
              k == key.repr[4..]
  {
    if key.typed.Some? && key.typed.value != [] then Lower(key.typed.value)
    else if '.' !in key.repr then
      RemoveKeyDotNoDot(key.repr);
      RemoveKeyDot(key.repr)
    else if |key.repr| >= 4 && key.repr[..4] == "Key." && '.' !in key.repr[4..] then
      assert key.repr == "Key." + key.repr[4..];
      NamedKeyText(key.repr[4..]);
      RemoveKeyDot(key.repr)
    else
      RemoveKeyDot(key.repr)
  }

  /** Typed letters come out lower-case and named keys lose their "Key."
      prefix, which is what the handlers compare against. */
  lemma KeyTextExamples(name: string)
    requires '.' !in name
    ensures KeyText(PynputKey(Some("W"), "'W'")) == "w"
    ensures KeyText(PynputKey(None, "Key." + name)) == name
    ensures KeyText(PynputKey(Some(""), "Key." + name)) == name
  {
    NamedKeyText(name);
  }

  /** The movement keys process_manual_keys reads, as a HeldKeys record. */
  function HeldOf(keys: set<string>): (h: HeldKeys)
    ensures h.forward == ("w" in keys) && h.backward == ("s" in keys)
    ensures h.left == ("a" in keys) && h.right == ("d" in keys)
    ensures h.up == ("q" in keys) && h.down == ("e" in keys)
    ensures h.yawLeft == ("left" in keys) && h.yawRight == ("right" in keys)
  {
    HeldKeys("w" in keys, "s" in keys, "a" in keys, "d" in keys, "q" in keys, "e" in keys,
             "left" in keys, "right" in keys)
  }

  /** The keys on_press handles itself, returning before the movement keys are
      re-read (t, l and r only when a vehicle is present). */
  predicate SpecialKey(k: string, hasVehicle: bool)
  {
    k == "space" || k == "1" || k == "2" || k == "3" || k == "esc"
    || ((k == "t" || k == "l" || k == "r") && hasVehicle)
  }

  class PynputSession {
    var vehicle: Vehicle?
    var flightMode: string
    var moveSpeed: real
    var verticalSpeed: real
    var yawRate: real                 // deg/s
    var autonomousEnabled: bool
    var keysPressed: set<string>
    var commandActive: bool
    var currentVx: real
    var currentVy: real
    var currentVz: real
    var currentYaw: real              // rad/s
    var faceDetected: bool
    var faceZone: Zone
    var faceCenter: (int, int)

    /** The flight mode is one of the three names and the speeds are its triple. */
    ghost predicate Valid()
      reads this
    {
      IsProfileName(flightMode)
      && moveSpeed == TkProfile(flightMode).groundSpeed
      && verticalSpeed == TkProfile(flightMode).verticalSpeed
      && yawRate == TkProfile(flightMode).yawRate
    }

    function Current(): Velocity
      reads this
    {
      Velocity(currentVx, currentVy, currentVz, currentYaw)
    }

    /** What the held keys ask for at the session's speeds. */
    function HeldCommand(): Velocity
      reads this
    {
      HeldVelocity(HeldOf(keysPressed), moveSpeed, verticalSpeed, Radians(yawRate))
    }

    constructor (vehicle: Vehicle?)
      ensures Valid()
      ensures this.vehicle == vehicle && flightMode == "standard"
      ensures !autonomousEnabled && !commandActive && keysPressed == {}
      ensures Current() == Stopped && !faceDetected && faceZone == Center
    {
      this.vehicle := vehicle;
      flightMode := "standard";
      moveSpeed, verticalSpeed, yawRate := TkStandard.groundSpeed, TkStandard.verticalSpeed, TkStandard.yawRate;
      autonomousEnabled := false;
      keysPressed := {};
      commandActive := false;
      currentVx, currentVy, currentVz, currentYaw := 0.0, 0.0, 0.0, 0.0;
      faceDetected := false;
      faceZone := Center;
      faceCenter := (FrameWidth / 2, FrameHeight / 2);
    }

    method UpdateSpeeds()
      modifies this`moveSpeed, this`verticalSpeed, this`yawRate
      ensures moveSpeed == TkProfile(flightMode).groundSpeed
      ensures verticalSpeed == TkProfile(flightMode).verticalSpeed
      ensures yawRate == TkProfile(flightMode).yawRate
    {
      if flightMode == "eco" {
        moveSpeed, verticalSpeed, yawRate := TkEco.groundSpeed, TkEco.verticalSpeed, TkEco.yawRate;
      } else if flightMode == "performance" {
        moveSpeed, verticalSpeed, yawRate := TkPerformance.groundSpeed, TkPerformance.verticalSpeed, TkPerformance.yawRate;
      } else {
        moveSpeed, verticalSpeed, yawRate := TkStandard.groundSpeed, TkStandard.verticalSpeed, TkStandard.yawRate;
      }
    }

    /** set_velocity: the four writes happen as one step (the source holds no lock). */
    method SetVelocity(v: Velocity)
      modifies this`currentVx, this`currentVy, this`currentVz, this`currentYaw
      ensures Current() == v
    {
      currentVx, currentVy, currentVz, currentYaw := v.vx, v.vy, v.vz, v.yawRate;
    }

    method StartCommandSender()
      modifies this`commandActive
      ensures commandActive
    {
      commandActive := true;
    }

    /** One tick of _command_loop, as in the tkinter script. */
    method CommandLoopIteration(linkOk: bool) returns (continues: bool)
      modifies vehicle
      ensures continues == commandActive
      ensures vehicle != null ==> vehicle.armed == old(vehicle.armed)
      ensures vehicle != null ==>
                vehicle.sent == old(vehicle.sent)
                  + (if commandActive && linkOk then Gated(old(vehicle.armed), Current()) else [])
    {
      continues := commandActive;
      if commandActive && vehicle != null && vehicle.armed && linkOk {
        vehicle.Send(VelocityTarget(Current()));
      }
    }

    /** process_manual_keys: with a present, armed vehicle the vector is
        rebuilt from the held keys, the later key of a pair overriding the
        earlier; otherwise nothing changes. */
    method ProcessManualKeys()
      modifies this`currentVx, this`currentVy, this`currentVz, this`currentYaw
      ensures vehicle != null && vehicle.armed ==> Current() == HeldCommand()
      ensures !(vehicle != null && vehicle.armed) ==> Current() == old(Current())
    {
      if vehicle == null || !vehicle.armed {
        return;
      }
      var vx, vy, vz, yaw := 0.0, 0.0, 0.0, 0.0;
      if "w" in keysPressed {
        vx := moveSpeed;
      }
      if "s" in keysPressed {
        vx := -moveSpeed;
      }
      if "a" in keysPressed {
        vy := -moveSpeed;
      }
      if "d" in keysPressed {
        vy := moveSpeed;
      }
      if "q" in keysPressed {
        vz := -verticalSpeed;
      }
      if "e" in keysPressed {
        vz := verticalSpeed;
      }
      if "left" in keysPressed {
        yaw := -Radians(yawRate);
      }
      if "right" in keysPressed {
        yaw := Radians(yawRate);
      }
      SetVelocity(Velocity(vx, vy, vz, yaw));
    }

    /** cleanup: the command loop is told to stop and, with a vehicle, the vector zeroed. */
    method Cleanup()
      modifies this`commandActive, this`currentVx, this`currentVy, this`currentVz, this`currentYaw
      ensures !commandActive
      ensures vehicle != null ==> Current() == Stopped
      ensures vehicle == null ==> Current() == old(Current())
    {
      commandActive := false;
      if vehicle != null {
        SetVelocity(Stopped);
      }
    }

    /** on_press: the key text joins the held set; space, 1/2/3, esc and (with
        a vehicle) t/l/r are handled and return at once, esc also cleaning up
        and stopping the listener; any other key in manual mode re-runs the
        held-key mapper. */
    method OnPress(key: PynputKey) returns (keepListening: bool)
      requires Valid()
      modifies this`keysPressed, this`autonomousEnabled, this`flightMode,
               this`moveSpeed, this`verticalSpeed, this`yawRate, this`commandActive,
               this`currentVx, this`currentVy, this`currentVz, this`currentYaw
      ensures Valid()
      ensures var k := KeyText(key);
              keysPressed == old(keysPressed) + {k}
              && (keepListening <==> k != "esc")
              && (k == "esc" ==> !commandActive)
              && (k != "esc" ==> commandActive == old(commandActive))
      ensures var k := KeyText(key);
              autonomousEnabled == (if k == "space" then !old(autonomousEnabled)
                                    else if (k == "l" || k == "r") && vehicle != null then false
                                    else old(autonomousEnabled))
      ensures var k := KeyText(key);
              flightMode == (if k == "1" then "eco" else if k == "2" then "standard"
                             else if k == "3" then "performance" else old(flightMode))
      ensures var k := KeyText(key);
              Current() == (if k == "space" && old(autonomousEnabled) then Stopped
                            else if k == "esc" && vehicle != null then Stopped
                            else if !SpecialKey(k, vehicle != null) && !autonomousEnabled
                                    && vehicle != null && vehicle.armed then HeldCommand()
                            else old(Current()))
    {
      var k := KeyText(key);
      keysPressed := keysPressed + {k};
      keepListening := true;
      if k == "space" {
        autonomousEnabled := !autonomousEnabled;
        if !autonomousEnabled {
          SetVelocity(Stopped);
        }
        return;
      } else if k == "1" {
        flightMode := "eco";
        UpdateSpeeds();
        return;
      } else if k == "2" {
        flightMode := "standard";
        UpdateSpeeds();
        return;
      } else if k == "3" {
        flightMode := "performance";
        UpdateSpeeds();
        return;
      } else if k == "t" && vehicle != null {
        // simple_takeoff on an armed vehicle: not part of this model
        return;
      } else if k == "l" && vehicle != null {
        // the LAND mode change is not part of this model
        autonomousEnabled := false;
        return;
      } else if k == "r" && vehicle != null {
        // the RTL mode change is not part of this model
        autonomousEnabled := false;
        return;
      } else if k == "esc" {
        Cleanup();
        return false;
      }
      if !autonomousEnabled {
        ProcessManualKeys();
      }
    }

    /** on_release: the key text leaves the held set and, in manual mode, the
        vector is rebuilt from what is still held. */
    method OnRelease(key: PynputKey)
      modifies this`keysPressed, this`currentVx, this`currentVy, this`currentVz, this`currentYaw
      ensures keysPressed == old(keysPressed) - {KeyText(key)}
      ensures Current() == (if !autonomousEnabled && vehicle != null && vehicle.armed then HeldCommand()
                            else old(Current()))
    {
      var k := KeyText(key);
      keysPressed := keysPressed - {k};
      if !autonomousEnabled {
        ProcessManualKeys();
      }
    }

    /** detect_face, with the detector's result as input. */
    method DetectFace(faceFound: bool, center: (int, int))
      modifies this`faceDetected, this`faceZone, this`faceCenter
      ensures faceDetected == faceFound
      ensures faceFound ==> faceCenter == center && faceZone == Classify(FrameWidth, FrameHeight, center.0, center.1)
      ensures !faceFound ==> faceCenter == old(faceCenter) && faceZone == old(faceZone)
    {
      if faceFound {
        faceCenter := center;
        faceZone := GetFaceZone(FrameWidth, FrameHeight, center.0, center.1);
        faceDetected := true;
      } else {
        faceDetected := false;
      }
    }

    /** calculate_autonomous_commands: the zone mapper without dead zones. */
    method CalculateAutonomousCommands()
      modifies this`currentVx, this`currentVy, this`currentVz, this`currentYaw
      ensures Current() == ZoneCommand(faceDetected, faceZone, moveSpeed, verticalSpeed)
    {
      if !faceDetected || faceZone == Center {
        SetVelocity(Stopped);
        return;
      }
      var vy, vz := 0.0, 0.0;
      if LeftZone(faceZone) {
        vy := -moveSpeed;
      } else if RightZone(faceZone) {
        vy := moveSpeed;
      }
      if TopZone(faceZone) {
        vz := -verticalSpeed;
      } else if BottomZone(faceZone) {
        vz := verticalSpeed;
      }
      SetVelocity(Velocity(0.0, vy, vz, 0.0));
    }

    /** The camera loop for one frame: in autonomous mode, detect and re-aim. */
    method CameraStep(faceFound: bool, center: (int, int))
      modifies this`faceDetected, this`faceZone, this`faceCenter,
               this`currentVx, this`currentVy, this`currentVz, this`currentYaw
      ensures autonomousEnabled ==>
                Current() == ZoneCommand(faceFound, Classify(FrameWidth, FrameHeight, center.0, center.1), moveSpeed, verticalSpeed)
      ensures !autonomousEnabled ==> Current() == old(Current()) && faceDetected == old(faceDetected)
    {
      if autonomousEnabled {
        DetectFace(faceFound, center);
        CalculateAutonomousCommands();
      }
    }
  }

  /** A fresh armed session in standard, manual mode after pressing w. */
  method PressForward() returns (session: PynputSession)
    ensures fresh(session) && session.Valid() && session.flightMode == "standard"
    ensures session.vehicle != null && session.vehicle.armed && !session.autonomousEnabled
    ensures session.keysPressed == {"w"}
    ensures session.Current() == Velocity(3.0, 0.0, 0.0, 0.0)
  {
    var drone := new Vehicle(true);
    session := new PynputSession(drone);
    assert KeyText(PynputKey(Some("w"), "'w'")) == "w";
    var _ := session.OnPress(PynputKey(Some("w"), "'w'"));
  }

  /** Armed, manual: hold w and a, release w.  Unlike the tkinter script the
      release re-runs the mapper, so only the strafe remains. */
  method ReleaseRecomputes() returns (streamed: Velocity)
    ensures streamed == Velocity(0.0, -3.0, 0.0, 0.0)
  {
    var session := PressForward();
    assert KeyText(PynputKey(Some("A"), "'A'")) == "a";
    var _ := session.OnPress(PynputKey(Some("A"), "'A'"));
    assert session.keysPressed == {"w", "a"};
    assert KeyText(PynputKey(Some("w"), "'w'")) == "w";
    session.OnRelease(PynputKey(Some("w"), "'w'"));
    assert session.keysPressed == {"a"};
    streamed := session.Current();
  }

  /** Armed, manual, w held: pressing a flight-mode key returns before the
      mapper, so the streamed vector keeps the old speed; releasing that key
      re-runs the mapper (every release in manual mode does) and the vector
      takes the new speed. */
  method ModeKeyKeepsVector() returns (streamed: Velocity, held: Velocity, afterRelease: Velocity)
    ensures streamed == Velocity(3.0, 0.0, 0.0, 0.0)
    ensures held == Velocity(4.5, 0.0, 0.0, 0.0)
    ensures afterRelease == Velocity(4.5, 0.0, 0.0, 0.0)
  {
    var session := PressForward();
    assert KeyText(PynputKey(Some("3"), "'3'")) == "3";
    var _ := session.OnPress(PynputKey(Some("3"), "'3'"));
    assert session.keysPressed == {"w", "3"} && session.flightMode == "performance";
    streamed := session.Current();
    held := session.HeldCommand();
    session.OnRelease(PynputKey(Some("3"), "'3'"));
    assert session.keysPressed == {"w"};
    afterRelease := session.Current();
  }
}
