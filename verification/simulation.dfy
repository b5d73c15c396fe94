/** The session object of elevatexy_simulation.py: a camera window whose key
    presses drive a ManualDroneController and whose face detections, in
    autonomous mode, drive the dead-zoned zone mapper.  Commands are sent
    immediately, and only to a present, armed vehicle. */
module Simulation {
  import opened Link
  import opened Grid
  import opened Profiles
  import opened Tracking
  import opened ManualControl

  // Keys the run loop dispatches on (cv2.waitKey(1) & 0xFF).
  const KeyQuit: int := 113         // 'q'
  const KeyEco: int := 49           // '1'
  const KeyStandard: int := 50      // '2'
  const KeyPerformance: int := 51   // '3'
  const KeySpace: int := 32         // ' '
  const KeyTakeoff: int := 116      // 't'
  const KeyLand: int := 108         // 'l'
  const NoKey: int := 255           // waitKey timed out (-1 & 0xFF)

  /** The key the run loop sees: `waitKey(1) & 0xFF`, which for every Python
      int equals the floor remainder modulo 256. */
  function MaskKey(raw: int): (key: int)
    ensures 0 <= key < 256
    ensures 0 <= raw < 256 ==> key == raw
    ensures raw == -1 ==> key == NoKey
  {
    raw % 256
  }

  class ElevateXYSimulation {
    var vehicle: Vehicle?
    var manual: ManualDroneController?
    var flightMode: string
    var moveSpeed: real
    var verticalSpeed: real
    var yawRate: real                // deg/s
    var autonomousEnabled: bool
    var faceDetected: bool
    var faceZone: Zone
    var faceCenter: (int, int)

    /** The flight mode is always one of the three names, the session speeds
        are its triple, and the manual controller (once connected) talks to
        the same vehicle in the same flight mode. */
    ghost predicate Valid()
      reads this, manual
    {
      IsProfileName(flightMode)
      && moveSpeed == SimProfile(flightMode).groundSpeed
      && verticalSpeed == SimProfile(flightMode).verticalSpeed
      && yawRate == Degrees(SimProfile(flightMode).yawRate)
      && (manual != null ==> manual.vehicle == vehicle && manual.flightMode == flightMode && manual.Valid())
    }

    constructor ()
      ensures Valid()
      ensures vehicle == null && manual == null
      ensures flightMode == "standard" && !autonomousEnabled && !faceDetected
      ensures faceZone == Center && faceCenter == (FrameWidth / 2, FrameHeight / 2)
    {
      vehicle, manual := null, null;
      flightMode := "standard";
      moveSpeed, verticalSpeed, yawRate :=
        SimStandard.groundSpeed, SimStandard.verticalSpeed, Degrees(SimStandard.yawRate);
      autonomousEnabled, faceDetected := false, false;
      faceZone := Center;
      faceCenter := (FrameWidth / 2, FrameHeight / 2);
    }

    /** The state change of connect_sitl once the link is up: the vehicle is
        recorded and a fresh manual controller is made in the current flight mode. */
    method Connect(v: Vehicle)
      requires Valid()
      modifies this
      ensures Valid()
      ensures vehicle == v && manual != null && fresh(manual) && manual.Command() == Stopped
      ensures flightMode == old(flightMode) && autonomousEnabled == old(autonomousEnabled)
    {
      vehicle := v;
      manual := new ManualDroneController(v, flightMode);
    }

    /** update_speeds_for_mode: the session speeds follow flight_mode (unknown
        names reading as standard) and the manual controller is told the mode. */
    method UpdateSpeedsForMode()
      modifies this`moveSpeed, this`verticalSpeed, this`yawRate, manual
      ensures moveSpeed == SimProfile(flightMode).groundSpeed
      ensures verticalSpeed == SimProfile(flightMode).verticalSpeed
      ensures yawRate == Degrees(SimProfile(flightMode).yawRate)
      ensures manual != null ==> manual.flightMode == flightMode && manual.Valid()
      ensures manual != null ==> manual.vehicle == old(manual.vehicle) && manual.Command() == old(manual.Command())
    {
      if flightMode == "eco" {
        moveSpeed, verticalSpeed, yawRate := SimEco.groundSpeed, SimEco.verticalSpeed, Degrees(SimEco.yawRate);
      } else if flightMode == "performance" {
        moveSpeed, verticalSpeed, yawRate :=
          SimPerformance.groundSpeed, SimPerformance.verticalSpeed, Degrees(SimPerformance.yawRate);
      } else {
        moveSpeed, verticalSpeed, yawRate :=
          SimStandard.groundSpeed, SimStandard.verticalSpeed, Degrees(SimStandard.yawRate);
      }
      if manual != null {
        manual.SetFlightMode(flightMode);
      }
    }

    /** set_flight_mode: a name outside eco/standard/performance is ignored;
        an accepted name installs its triple in the session and the controller. */
    method SetFlightMode(mode: string)
      requires Valid()
      modifies this`flightMode, this`moveSpeed, this`verticalSpeed, this`yawRate, manual
      ensures Valid()
      ensures IsProfileName(mode) ==> flightMode == mode && moveSpeed == SimProfile(mode).groundSpeed
                                      && verticalSpeed == SimProfile(mode).verticalSpeed
      ensures !IsProfileName(mode) ==> flightMode == old(flightMode) && moveSpeed == old(moveSpeed)
                                       && verticalSpeed == old(verticalSpeed) && yawRate == old(yawRate)
      ensures manual != null ==> manual.Command() == old(manual.Command())
    {
      if !IsProfileName(mode) {
        return;
      }
      flightMode := mode;
      UpdateSpeedsForMode();
    }

    /** send_velocity_command: nothing is sent unless the vehicle is present and armed. */
    method SendVelocityCommand(v: Velocity)
      modifies vehicle
      ensures vehicle != null ==> vehicle.sent == old(vehicle.sent) + Gated(old(vehicle.armed), v)
      ensures vehicle != null ==> vehicle.armed == old(vehicle.armed)
    {
      if vehicle == null || !vehicle.armed {
        return;
      }
      vehicle.Send(VelocityTarget(v));
    }

    /** stop_movement: a zero command (armed vehicles only) and a zeroed controller. */
    method StopMovement()
      modifies vehicle, manual
      ensures vehicle != null ==> vehicle.sent == old(vehicle.sent) + Gated(old(vehicle.armed), Stopped)
      ensures vehicle != null ==> vehicle.armed == old(vehicle.armed)
      ensures manual != null ==> manual.Command() == Stopped
      ensures manual != null ==> manual.vehicle == old(manual.vehicle) && manual.flightMode == old(manual.flightMode)
      ensures manual != null ==> manual.moveSpeed == old(manual.moveSpeed)
      ensures manual != null ==> manual.verticalSpeed == old(manual.verticalSpeed)
      ensures manual != null ==> manual.yawRate == old(manual.yawRate)
    {
      SendVelocityCommand(Stopped);
      if manual != null {
        manual.StopAll();
      }
    }

    /** The decision part of detect_and_track for one camera frame; the
        detector's result is the input (was a face found, and its centre),
        and so is the rate limit (has command_interval elapsed). */
    method DetectAndTrack(faceFound: bool, center: (int, int), intervalElapsed: bool) returns (tracked: bool)
      requires Valid()
      modifies this`faceDetected, this`faceZone, this`faceCenter, vehicle, manual
      ensures Valid()
      ensures tracked == faceFound && faceDetected == faceFound
      ensures faceFound ==> faceCenter == center && faceZone == Classify(FrameWidth, FrameHeight, center.0, center.1)
      ensures !faceFound ==> faceCenter == old(faceCenter) && faceZone == old(faceZone)
      ensures var d := Decide(autonomousEnabled, faceFound, faceZone, intervalElapsed);
              vehicle != null ==>
                vehicle.sent == old(vehicle.sent) +
                  (if d == Adjust then Gated(old(vehicle.armed), DeadZonedCommand(faceZone, center.0, center.1, moveSpeed, verticalSpeed))
                   else if d == Halt then Gated(old(vehicle.armed), Stopped)
                   else [])
      ensures var d := Decide(autonomousEnabled, faceFound, faceZone, intervalElapsed);
              manual != null ==> manual.Command() == (if d == Halt then Stopped else old(manual.Command()))
    {
      if faceFound {
        faceCenter := center;
        faceDetected := true;
        faceZone := GetFaceZone(FrameWidth, FrameHeight, center.0, center.1);
        if autonomousEnabled && intervalElapsed {
          if faceZone != Center {
            var cmd := DeadZonedCommand(faceZone, center.0, center.1, moveSpeed, verticalSpeed);
            SendVelocityCommand(cmd);
          } else {
            StopMovement();
          }
        }
        tracked := true;
      } else {
        faceDetected := false;
        if autonomousEnabled {
          StopMovement();
        }
        tracked := false;
      }
    }

    /** handle_manual_control: zero the controller, set at most one axis from
        the key at the session's speeds, and send it in manual mode. */
    method HandleManualControl(key: int)
      requires Valid()
      modifies vehicle, manual
      ensures Valid()
      ensures manual != null && vehicle != null ==>
                manual.Command() == SimKeyCommand(key, moveSpeed, verticalSpeed, yawRate)
                && vehicle.sent == old(vehicle.sent)
                     + (if autonomousEnabled then [] else Gated(old(vehicle.armed), manual.Command()))
      ensures manual == null || vehicle == null ==>
                (manual != null ==> manual.Command() == old(manual.Command()))
                && (vehicle != null ==> vehicle.sent == old(vehicle.sent))
      ensures vehicle != null ==> vehicle.armed == old(vehicle.armed)
    {
      if manual == null || vehicle == null {
        return;
      }
      manual.StopAll();
      if key == KeyW {
        manual.SetForward(moveSpeed);
      } else if key == KeyS {
        manual.SetBackward(moveSpeed);
      } else if key == KeyA {
        manual.SetLeft(moveSpeed);
      } else if key == KeyD {
        manual.SetRight(moveSpeed);
      } else if key == ArrowUp {
        manual.SetUp(verticalSpeed);
      } else if key == ArrowDown {
        manual.SetDown(verticalSpeed);
      } else if key == ArrowLeft {
        manual.SetYawLeft(yawRate);
      } else if key == ArrowRight {
        manual.SetYawRight(yawRate);
      }
      if !autonomousEnabled {
        manual.SendCommand();
      }
    }

    /** One key of the run loop: q quits, 1/2/3 pick a flight mode, space
        toggles autonomous mode (stopping on the way into manual), l (with a
        vehicle) leaves autonomous mode, and any other key in manual mode goes
        to handle_manual_control. */
    method HandleKey(raw: int) returns (quit: bool)
      requires Valid()
      modifies this`flightMode, this`moveSpeed, this`verticalSpeed, this`yawRate, this`autonomousEnabled,
               vehicle, manual
      ensures Valid()
      ensures quit <==> MaskKey(raw) == KeyQuit
      ensures var key := MaskKey(raw);
              autonomousEnabled == (if key == KeySpace then !old(autonomousEnabled)
                                    else if key == KeyLand && vehicle != null then false
                                    else old(autonomousEnabled))
      ensures var key := MaskKey(raw);
              flightMode == (if key == KeyEco then "eco" else if key == KeyStandard then "standard"
                             else if key == KeyPerformance then "performance" else old(flightMode))
      ensures MaskKey(raw) == KeySpace && old(autonomousEnabled) ==>
                (manual != null ==> manual.Command() == Stopped)
                && (vehicle != null ==> vehicle.sent == old(vehicle.sent) + Gated(old(vehicle.armed), Stopped))
      ensures var key := MaskKey(raw);
              key !in {KeyQuit, KeyEco, KeyStandard, KeyPerformance, KeySpace, KeyTakeoff, KeyLand, NoKey}
              && !old(autonomousEnabled) && manual != null && vehicle != null ==>
                manual.Command() == SimKeyCommand(key, moveSpeed, verticalSpeed, yawRate)
                && vehicle.sent == old(vehicle.sent) + Gated(old(vehicle.armed), manual.Command())
      ensures var key := MaskKey(raw);
              (key != KeySpace || !old(autonomousEnabled))
              && (key in {KeyQuit, KeyEco, KeyStandard, KeyPerformance, KeySpace, KeyTakeoff, KeyLand, NoKey}
                  || old(autonomousEnabled)) ==>
                (manual != null ==> manual.Command() == old(manual.Command()))
                && (vehicle != null ==> vehicle.sent == old(vehicle.sent))
      ensures vehicle != null ==> vehicle.armed == old(vehicle.armed)
    {
      var key := MaskKey(raw);
      quit := false;
      if key == KeyQuit {
        quit := true;
      } else if key == KeyEco {
        SetFlightMode("eco");
      } else if key == KeyStandard {
        SetFlightMode("standard");
      } else if key == KeyPerformance {
        SetFlightMode("performance");
      } else if key == KeySpace {
        autonomousEnabled := !autonomousEnabled;
        if !autonomousEnabled {
          StopMovement();
        }
      } else if key == KeyTakeoff {
        // simple_takeoff on an armed vehicle: not part of this model
      } else if key == KeyLand {
        if vehicle != null {
          // the LAND mode change is not part of this model
          autonomousEnabled := false;
        }
      } else if key != NoKey {
        if !autonomousEnabled {
          HandleManualControl(key);
        }
      }
    }

    /** cleanup: autonomous mode off and, with a vehicle, a final stop_movement. */
    method Cleanup()
      requires Valid()
      modifies this`autonomousEnabled, vehicle, manual
      ensures Valid() && !autonomousEnabled
      ensures vehicle != null ==> vehicle.sent == old(vehicle.sent) + Gated(old(vehicle.armed), Stopped)
      ensures vehicle != null && manual != null ==> manual.Command() == Stopped
    {
      autonomousEnabled := false;
      if vehicle != null {
        StopMovement();
      }
    }
  }
}
