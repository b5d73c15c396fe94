/** The session object of elevatexy_simulation_arm.py: the camera-window
    simulation with a power panel and an arm key.  Unlike elevatexy_simulation.py
    the session keeps no speeds of its own (the autonomous mapper looks the
    profile up by name, the manual handler reads the controller's speeds), any
    flight-mode name is stored, and only w, a, d and the vertical arrows move. */
module SimulationArm {
  import opened Link
  import opened Grid
  import opened Profiles
  import opened Tracking
  import opened ManualControl
  import Simulation

  const KeyArm: int := 120          // 'x'
  const KeyArmUpper: int := 88      // 'X'

  class ElevateXYSimulationArm {
    var vehicle: Vehicle?
    var manual: ManualDroneController?
    var flightMode: string
    var autonomousEnabled: bool
    var faceDetected: bool
    var faceZone: Zone
    var faceCenter: (int, int)

    /** The manual controller (once connected) talks to the same vehicle in
        the same flight mode, and its speeds match that mode. */
    ghost predicate Valid()
      reads this, manual
    {
      manual != null ==> manual.vehicle == vehicle && manual.flightMode == flightMode && manual.Valid()
    }

    constructor ()
      ensures Valid()
      ensures vehicle == null && manual == null
      ensures flightMode == "standard" && !autonomousEnabled && !faceDetected
      ensures faceZone == Center && faceCenter == (FrameWidth / 2, FrameHeight / 2)
    {
      vehicle, manual := null, null;
      flightMode := "standard";
      autonomousEnabled, faceDetected := false, false;
      faceZone := Center;
      faceCenter := (FrameWidth / 2, FrameHeight / 2);
    }

    /** The state change of connect_sitl once the link is up. */
    method Connect(v: Vehicle)
      modifies this
      ensures Valid()
      ensures vehicle == v && manual != null && fresh(manual) && manual.Command() == Stopped
      ensures flightMode == old(flightMode) && autonomousEnabled == old(autonomousEnabled)
    {
      vehicle := v;
      manual := new ManualDroneController(v, flightMode);
    }

    /** set_flight_mode: the name is stored as given (no validation) and passed
        to the controller, whose speeds then read an unknown name as standard. */
    method SetFlightMode(mode: string)
      requires Valid()
      modifies this`flightMode, manual
      ensures Valid() && flightMode == mode
      ensures manual != null ==> manual.moveSpeed == SimProfile(mode).groundSpeed
                                 && manual.Command() == old(manual.Command())
    {
      flightMode := mode;
      if manual != null {
        manual.SetFlightMode(mode);
      }
    }

    /** arm_drone, with the waits replaced by their outcomes: `armable` is
        is_armable at the end of the armable wait and `armedAfterWait` is armed
        at the end of the arming wait.  No vehicle, or a vehicle that never
        became armable while the check was asked for, fails without arming.
        Past that gate the `armed` setter sends one unforced arm request. */
    method ArmDrone(checkArmable: bool, armable: bool, armedAfterWait: bool) returns (ok: bool)
      modifies vehicle
      ensures ok <==> vehicle != null && (!checkArmable || armable) && armedAfterWait
      ensures vehicle != null && checkArmable && !armable ==> vehicle.armed == old(vehicle.armed)
      ensures vehicle != null && (!checkArmable || armable) ==> vehicle.armed == armedAfterWait
      ensures vehicle != null ==>
                vehicle.sent == old(vehicle.sent) + (if !checkArmable || armable then [ArmDisarm(true, PlainArmCode)] else [])
    {
      if vehicle == null {
        return false;
      }
      if checkArmable && !armable {
        return false;
      }
      // `self.vehicle.armed = True`: the setter sends the arm request
      vehicle.Send(ArmDisarm(true, PlainArmCode));
      vehicle.armed := armedAfterWait;
      ok := vehicle.armed;
    }

    /** The speeds calculate_drone_commands looks up: eco and performance by
        name, every other name standard. */
    function AutonomousSpeeds(): (p: FlightProfile)
      reads this
      ensures Positive(p)
      ensures p == SimEco || p == SimStandard || p == SimPerformance
    {
      ProfilesOrdered(flightMode);
      SimProfile(flightMode)
    }

    method SendVelocityCommand(v: Velocity)
      modifies vehicle
      ensures vehicle != null ==> vehicle.sent == old(vehicle.sent) + Gated(old(vehicle.armed), v)
      ensures vehicle != null ==> vehicle.armed == old(vehicle.armed)
    {
      if vehicle == null || !vehicle.armed {
        return;
      }
      vehicle.Send(VelocityTarget(v));
    }

    method StopMovement()
      modifies vehicle, manual
      ensures vehicle != null ==> vehicle.sent == old(vehicle.sent) + Gated(old(vehicle.armed), Stopped)
      ensures vehicle != null ==> vehicle.armed == old(vehicle.armed)
      ensures manual != null ==> manual.Command() == Stopped
      ensures manual != null ==> manual.vehicle == old(manual.vehicle) && manual.flightMode == old(manual.flightMode)
      ensures manual != null ==> manual.moveSpeed == old(manual.moveSpeed)
      ensures manual != null ==> manual.verticalSpeed == old(manual.verticalSpeed)
      ensures manual != null ==> manual.yawRate == old(manual.yawRate)
    {
      SendVelocityCommand(Stopped);
      if manual != null {
        manual.StopAll();
      }
    }

    /** detect_and_track for one frame, as in elevatexy_simulation.py but with
        the speeds looked up from the flight-mode name. */
    method DetectAndTrack(faceFound: bool, center: (int, int), intervalElapsed: bool) returns (tracked: bool)
      requires Valid()
      modifies this`faceDetected, this`faceZone, this`faceCenter, vehicle, manual
      ensures Valid()
      ensures tracked == faceFound && faceDetected == faceFound
      ensures faceFound ==> faceCenter == center && faceZone == Classify(FrameWidth, FrameHeight, center.0, center.1)
      ensures !faceFound ==> faceCenter == old(faceCenter) && faceZone == old(faceZone)
      ensures var d := Decide(autonomousEnabled, faceFound, faceZone, intervalElapsed);
              var p := SimProfile(flightMode);
              vehicle != null ==>
                vehicle.sent == old(vehicle.sent) +
                  (if d == Adjust then Gated(old(vehicle.armed), DeadZonedCommand(faceZone, center.0, center.1, p.groundSpeed, p.verticalSpeed))
                   else if d == Halt then Gated(old(vehicle.armed), Stopped)
                   else [])
      ensures var d := Decide(autonomousEnabled, faceFound, faceZone, intervalElapsed);
              manual != null ==> manual.Command() == (if d == Halt then Stopped else old(manual.Command()))
    {
      if faceFound {
        faceCenter := center;
        faceDetected := true;
        faceZone := GetFaceZone(FrameWidth, FrameHeight, center.0, center.1);
        if autonomousEnabled && intervalElapsed {
          if faceZone != Center {
            var p := AutonomousSpeeds();
            var cmd := DeadZonedCommand(faceZone, center.0, center.1, p.groundSpeed, p.verticalSpeed);
            SendVelocityCommand(cmd);
          } else {
            StopMovement();
          }
        }
        tracked := true;
      } else {
        faceDetected := false;
        if autonomousEnabled {
          StopMovement();
        }
        tracked := false;
      }
    }

    /** handle_manual_control of this variant: zero the controller, then
        only w, a, d and the up/down arrows set an axis, at the controller's
        speeds; in manual mode the vector is sent. */
    method HandleManualControl(key: int)
      requires Valid()
      modifies vehicle, manual
      ensures Valid()
      ensures manual != null && vehicle != null ==>
                manual.Command() == ArmKeyCommand(key, manual.moveSpeed, manual.verticalSpeed)
                && manual.moveSpeed == SimProfile(flightMode).groundSpeed
                && vehicle.sent == old(vehicle.sent)
                     + (if autonomousEnabled then [] else Gated(old(vehicle.armed), manual.Command()))
      ensures manual == null || vehicle == null ==>
                (manual != null ==> manual.Command() == old(manual.Command()))
                && (vehicle != null ==> vehicle.sent == old(vehicle.sent))
      ensures vehicle != null ==> vehicle.armed == old(vehicle.armed)
    {
      if manual == null || vehicle == null {
        return;
      }
      manual.StopAll();
      if key == KeyW {
        manual.SetForward(manual.moveSpeed);
      } else if key == KeyA {
        manual.SetLeft(manual.moveSpeed);
      } else if key == KeyD {
        manual.SetRight(manual.moveSpeed);
      } else if key == ArrowUp {
        manual.SetUp(manual.verticalSpeed);
      } else if key == ArrowDown {
        manual.SetDown(manual.verticalSpeed);
      }
      if !autonomousEnabled {
        manual.SendCommand();
      }
    }

    /** One key of the run loop: as in elevatexy_simulation.py, plus x/X
        calling arm_drone (its outcome given by `armable` and `armedAfterWait`). */
    method HandleKey(raw: int, armable: bool, armedAfterWait: bool) returns (quit: bool)
      requires Valid()
      modifies this`flightMode, this`autonomousEnabled, vehicle, manual
      ensures Valid()
      ensures quit <==> Simulation.MaskKey(raw) == Simulation.KeyQuit
      ensures var key := Simulation.MaskKey(raw);
              autonomousEnabled == (if key == Simulation.KeySpace then !old(autonomousEnabled)
                                    else if key == Simulation.KeyLand && vehicle != null then false
                                    else old(autonomousEnabled))
      ensures var key := Simulation.MaskKey(raw);
              flightMode == (if key == Simulation.KeyEco then "eco"
                             else if key == Simulation.KeyStandard then "standard"
                             else if key == Simulation.KeyPerformance then "performance"
                             else old(flightMode))
      ensures var key := Simulation.MaskKey(raw);
              (key == KeyArm || key == KeyArmUpper) && vehicle != null ==>
                vehicle.armed == (if armable then armedAfterWait else old(vehicle.armed))
                && vehicle.sent == old(vehicle.sent) + (if armable then [ArmDisarm(true, PlainArmCode)] else [])
      ensures Simulation.MaskKey(raw) == Simulation.KeySpace && old(autonomousEnabled) ==>
                (manual != null ==> manual.Command() == Stopped)
                && (vehicle != null ==> vehicle.sent == old(vehicle.sent) + Gated(old(vehicle.armed), Stopped))
      ensures var key := Simulation.MaskKey(raw);
              key !in {Simulation.KeyQuit, Simulation.KeyEco, Simulation.KeyStandard, Simulation.KeyPerformance,
                       Simulation.KeySpace, KeyArm, KeyArmUpper, Simulation.KeyTakeoff, Simulation.KeyLand,
                       Simulation.NoKey}
              && !old(autonomousEnabled) && manual != null && vehicle != null ==>
                manual.Command() == ArmKeyCommand(key, manual.moveSpeed, manual.verticalSpeed)
                && vehicle.sent == old(vehicle.sent) + Gated(old(vehicle.armed), manual.Command())
      ensures var key := Simulation.MaskKey(raw);
              key != KeyArm && key != KeyArmUpper && vehicle != null ==> vehicle.armed == old(vehicle.armed)
      ensures var key := Simulation.MaskKey(raw);
              (key != Simulation.KeySpace || !old(autonomousEnabled))
              && (key in {Simulation.KeyQuit, Simulation.KeyEco, Simulation.KeyStandard, Simulation.KeyPerformance,
                          Simulation.KeySpace, KeyArm, KeyArmUpper, Simulation.KeyTakeoff, Simulation.KeyLand,
                          Simulation.NoKey}
                  || old(autonomousEnabled)) ==>
                manual != null ==> manual.Command() == old(manual.Command())
      ensures var key := Simulation.MaskKey(raw);
              (key != Simulation.KeySpace || !old(autonomousEnabled)) && key != KeyArm && key != KeyArmUpper
              && (key in {Simulation.KeyQuit, Simulation.KeyEco, Simulation.KeyStandard, Simulation.KeyPerformance,
                          Simulation.KeySpace, Simulation.KeyTakeoff, Simulation.KeyLand, Simulation.NoKey}
                  || old(autonomousEnabled)) ==>
                vehicle != null ==> vehicle.sent == old(vehicle.sent)
    {
      var key := Simulation.MaskKey(raw);
      quit := false;
      if key == Simulation.KeyQuit {
        quit := true;
      } else if key == Simulation.KeyEco {
        SetFlightMode("eco");
      } else if key == Simulation.KeyStandard {
        SetFlightMode("standard");
      } else if key == Simulation.KeyPerformance {
        SetFlightMode("performance");
      } else if key == Simulation.KeySpace {
        autonomousEnabled := !autonomousEnabled;
        if !autonomousEnabled {
          StopMovement();
        }
      } else if key == KeyArm || key == KeyArmUpper {
        var _ := ArmDrone(true, armable, armedAfterWait);
      } else if key == Simulation.KeyTakeoff {
        // simple_takeoff on an armed vehicle: not part of this model
      } else if key == Simulation.KeyLand {
        if vehicle != null {
          autonomousEnabled := false;
        }
      } else if key != Simulation.NoKey {
        if !autonomousEnabled {
          HandleManualControl(key);
        }
      }
    }

    /** cleanup: autonomous mode off and, with a vehicle, a final stop_movement. */
    method Cleanup()
      requires Valid()
      modifies this`autonomousEnabled, vehicle, manual
      ensures Valid() && !autonomousEnabled
      ensures vehicle != null ==> vehicle.sent == old(vehicle.sent) + Gated(old(vehicle.armed), Stopped)
      ensures vehicle != null && manual != null ==> manual.Command() == Stopped
    {
      autonomousEnabled := false;
      if vehicle != null {
        StopMovement();
      }
    }
  }

  /** The arm variant cannot move backwards or yaw from the keyboard, so
      the manual vectors it can produce are a strict subset of the ones
      elevatexy_simulation.py produces for the same key and speeds. */
  lemma ArmKeysSubsetOfSimKeys(key: int, moveSpeed: real, verticalSpeed: real, yawDeg: real)
    ensures key != KeyS && key != ArrowLeft && key != ArrowRight ==>
              ArmKeyCommand(key, moveSpeed, verticalSpeed) == SimKeyCommand(key, moveSpeed, verticalSpeed, yawDeg)
    ensures ArmKeyCommand(KeyS, moveSpeed, verticalSpeed) == Stopped
  {
  }
}
