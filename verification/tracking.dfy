/** The autonomous (face-following) mappers: a zone of the grid becomes a
    bang-bang body-frame velocity.  Left/right columns strafe, top/bottom rows
    climb/descend, and neither forward speed nor yaw is ever commanded. */
module Tracking {
  import opened Link
  import opened Grid
  import opened Profiles

  /** Pixel dead zones of the camera-window simulations (deadzone_horizontal/_vertical). */
  const DeadzoneHorizontal: int := 80
  const DeadzoneVertical: int := 60

  /** frame_width // 2 and frame_height // 2. */
  const CenterX: int := FrameWidth / 2
  const CenterY: int := FrameHeight / 2

  function Abs(n: int): nat
  {
    if n < 0 then -n else n
  }

  // The zone lists the mappers test membership in.
  predicate LeftZone(z: Zone) { z == TopLeft || z == CenterLeft || z == BottomLeft }
  predicate RightZone(z: Zone) { z == TopRight || z == CenterRight || z == BottomRight }
  predicate TopZone(z: Zone) { z == TopLeft || z == TopCenter || z == TopRight }
  predicate BottomZone(z: Zone) { z == BottomLeft || z == BottomCenter || z == BottomRight }

  predicate HorizontalOutside(faceX: int) { Abs(faceX - CenterX) > DeadzoneHorizontal }
  predicate VerticalOutside(faceY: int) { Abs(faceY - CenterY) > DeadzoneVertical }

  /** calculate_drone_commands of the camera-window simulations: the column
      decides the sign of vy and the row the sign of vz, each axis gated by its
      own pixel dead zone around the frame centre. */
  function DeadZonedCommand(zone: Zone, faceX: int, faceY: int, groundSpeed: real, verticalSpeed: real): (r: Velocity)
    ensures r.vx == 0.0 && r.yawRate == 0.0
    ensures r.vy == 0.0 || r.vy == groundSpeed || r.vy == -groundSpeed
    ensures r.vz == 0.0 || r.vz == verticalSpeed || r.vz == -verticalSpeed
    ensures groundSpeed > 0.0 ==>
              (r.vy < 0.0 <==> ColumnOf(zone) == 0 && HorizontalOutside(faceX))
              && (r.vy > 0.0 <==> ColumnOf(zone) == 2 && HorizontalOutside(faceX))
    ensures verticalSpeed > 0.0 ==>
              (r.vz < 0.0 <==> RowOf(zone) == 0 && VerticalOutside(faceY))
              && (r.vz > 0.0 <==> RowOf(zone) == 2 && VerticalOutside(faceY))
  {
    var offsetX := faceX - CenterX;
    var offsetY := faceY - CenterY;
    var vy :=
      if LeftZone(zone) then (if Abs(offsetX) > DeadzoneHorizontal then -groundSpeed else 0.0)
      else if RightZone(zone) then (if Abs(offsetX) > DeadzoneHorizontal then groundSpeed else 0.0)
      else 0.0;
    var vz :=
      if TopZone(zone) then (if Abs(offsetY) > DeadzoneVertical then -verticalSpeed else 0.0)
      else if BottomZone(zone) then (if Abs(offsetY) > DeadzoneVertical then verticalSpeed else 0.0)
      else 0.0;
    Velocity(0.0, vy, vz, 0.0)
  }

  /** The horizontal and the vertical gate are independent: moving the face
      horizontally never changes vz, moving it vertically never changes vy. */
  lemma GatesIndependent(zone: Zone, x1: int, x2: int, y1: int, y2: int, g: real, v: real)
    ensures DeadZonedCommand(zone, x1, y1, g, v).vz == DeadZonedCommand(zone, x2, y1, g, v).vz
    ensures DeadZonedCommand(zone, x1, y1, g, v).vy == DeadZonedCommand(zone, x1, y2, g, v).vy
  {
  }

  /** calculate_autonomous_commands of the tkinter and pynput scripts: no face
      or a centred face gives all-zero; otherwise the same column/row sign
      rule without any dead zone. */
  function ZoneCommand(faceDetected: bool, zone: Zone, groundSpeed: real, verticalSpeed: real): (r: Velocity)
    ensures !faceDetected || zone == Center ==> r == Stopped
    ensures r.vx == 0.0 && r.yawRate == 0.0
    ensures faceDetected ==> r.vy == [-groundSpeed, 0.0, groundSpeed][ColumnOf(zone)]
    ensures faceDetected && zone != Center ==> r.vz == [-verticalSpeed, 0.0, verticalSpeed][RowOf(zone)]
  {
    if !faceDetected || zone == Center then Stopped
    else
      var vy := if LeftZone(zone) then -groundSpeed else if RightZone(zone) then groundSpeed else 0.0;
      var vz := if TopZone(zone) then -verticalSpeed else if BottomZone(zone) then verticalSpeed else 0.0;
      Velocity(0.0, vy, vz, 0.0)
  }

  /** Every command either mapper produces stays within the profile's speeds. */
  lemma AutonomousCommandsBounded(zone: Zone, x: int, y: int, detected: bool, g: real, v: real)
    requires g >= 0.0 && v >= 0.0
    ensures var r := DeadZonedCommand(zone, x, y, g, v); -g <= r.vy <= g && -v <= r.vz <= v
    ensures var r := ZoneCommand(detected, zone, g, v); -g <= r.vy <= g && -v <= r.vz <= v
  {
  }

  /** In the 640x480 frame the dead zones never bite: every pixel of the left
      or right column is more than 80 px from the centre line and every pixel
      of the top or bottom row more than 60 px, so for a face in the frame the
      dead-zoned mapper and the plain zone mapper agree. */
  lemma DeadZonesInactiveInFrame(x: int, y: int, g: real, v: real)
    requires InFrame(FrameWidth, FrameHeight, x, y)
    ensures var zone := Classify(FrameWidth, FrameHeight, x, y);
            DeadZonedCommand(zone, x, y, g, v) == ZoneCommand(true, zone, g, v)
  {
    var zone := Classify(FrameWidth, FrameHeight, x, y);
    if ColumnOf(zone) != 1 {
      assert HorizontalOutside(x);
    }
    if RowOf(zone) != 1 {
      assert VerticalOutside(y);
    }
  }

  /** What detect_and_track decides for one camera frame. */
  datatype TrackDecision =
    | Idle     // nothing is sent and nothing is zeroed
    | Adjust   // the zone's command is sent
    | Halt     // stop_movement: a zero command is sent and the manual vector zeroed

  /** The decision part of detect_and_track: a face outside CENTER is chased
      only once the command interval has elapsed; a centred face after the
      interval, or no face at all, stops the drone; outside autonomous mode
      nothing happens. */
  function Decide(autonomous: bool, faceFound: bool, zone: Zone, intervalElapsed: bool): (d: TrackDecision)
    ensures d == Halt <==> autonomous && (!faceFound || (intervalElapsed && zone == Center))
    ensures d == Adjust <==> autonomous && faceFound && intervalElapsed && zone != Center
    ensures d == Idle <==> !autonomous || (faceFound && !intervalElapsed)
  {
    if faceFound then
      if autonomous && intervalElapsed then (if zone != Center then Adjust else Halt) else Idle
    else if autonomous then Halt
    else Idle
  }

  /** Performance profile of the tkinter/pynput table, face in TOP_RIGHT:
      strafe right at 4.5 m/s and climb at 0.75 m/s. */
  lemma TopRightPerformance()
    ensures ZoneCommand(true, TopRight, TkPerformance.groundSpeed, TkPerformance.verticalSpeed)
            == Velocity(0.0, 4.5, -0.75, 0.0)
  {
  }
}
