/** The two terminal front ends: elevatexy_final.py (ElevateXY, armed from
    MAVProxy beforehand) and elevatexy_working.py (ElevateXYFinal, which
    force-arms itself).  Each reads a command line, normalises it with
    strip().lower(), and turns a move letter into a timed velocity pulse:
    the move's vector, then zero.  Neither gates its sends on the armed flag. */
module Repl {
  import opened Link
  import opened Text

  /** self.speed of both classes, and the fixed climb/descent rate of their move tables. */
  const DefaultSpeed: real := 2.0
  const ClimbRate: real := 0.5

  /** The keys of the move table. */
  predicate IsMoveKey(d: string)
  {
    d == "w" || d == "s" || d == "a" || d == "d" || d == "q" || d == "e"
  }

  /** The move table: one horizontal axis at `speed`, or the vertical axis at
      0.5 m/s whatever the speed; no yaw; None for a direction not in the table. */
  function MoveVector(direction: string, speed: real): (r: Option<Velocity>)
    ensures r.Some? <==> IsMoveKey(direction)
    ensures r.Some? ==> r.value.yawRate == 0.0 && NonzeroAxes(r.value) <= 1
    ensures r.Some? ==> r.value.vx == 0.0 || r.value.vx == speed || r.value.vx == -speed
    ensures r.Some? ==> r.value.vy == 0.0 || r.value.vy == speed || r.value.vy == -speed
    ensures r.Some? ==> r.value.vz == 0.0 || r.value.vz == ClimbRate || r.value.vz == -ClimbRate
    ensures r.Some? && speed != 0.0 ==> NonzeroAxes(r.value) == 1
  {
    if direction == "w" then Some(Velocity(speed, 0.0, 0.0, 0.0))
    else if direction == "s" then Some(Velocity(-speed, 0.0, 0.0, 0.0))
    else if direction == "a" then Some(Velocity(0.0, -speed, 0.0, 0.0))
    else if direction == "d" then Some(Velocity(0.0, speed, 0.0, 0.0))
    else if direction == "q" then Some(Velocity(0.0, 0.0, -ClimbRate, 0.0))
    else if direction == "e" then Some(Velocity(0.0, 0.0, ClimbRate, 0.0))
    else None
  }

  /** The direction a body-frame velocity points along (NED: -z is up). */
  function DirectionOf(v: Velocity): string
  {
    if v.vx > 0.0 then "w" else if v.vx < 0.0 then "s"
    else if v.vy < 0.0 then "a" else if v.vy > 0.0 then "d"
    else if v.vz < 0.0 then "q" else if v.vz > 0.0 then "e"
    else ""
  }

  /** With a positive speed every move's vector points in its own direction,
      so the table is one-to-one. */
  lemma MoveVectorDirection(d: string, speed: real)
    requires speed > 0.0 && IsMoveKey(d)
    ensures DirectionOf(MoveVector(d, speed).value) == d
  {
  }

  lemma MoveVectorInjective(d1: string, d2: string, speed: real)
    requires speed > 0.0 && IsMoveKey(d1) && IsMoveKey(d2)
    requires MoveVector(d1, speed) == MoveVector(d2, speed)
    ensures d1 == d2
  {
    MoveVectorDirection(d1, speed);
    MoveVectorDirection(d2, speed);
  }

  /** The messages one move sends: the vector, then (after the pulse) zero;
      nothing for a direction outside the table. */
  function MovePulse(direction: string, speed: real): (msgs: seq<Message>)
    ensures |msgs| == 0 <==> !IsMoveKey(direction)
    ensures IsMoveKey(direction) ==>
              |msgs| == 2 && msgs[0] == VelocityTarget(MoveVector(direction, speed).value)
              && msgs[1] == VelocityTarget(Stopped)
  {
    match MoveVector(direction, speed)
    case Some(v) => [VelocityTarget(v), VelocityTarget(Stopped)]
    case None => []
  }

  predicate NoUpper(s: string)
  {
    forall k :: 0 <= k < |s| ==> !('A' <= s[k] <= 'Z')
  }

  /** `input(...).strip().lower()`: the result never starts or ends with
      whitespace and holds no upper-case ASCII letter. */
  function Normalise(line: string): (cmd: string)
    ensures Trimmed(cmd) && NoUpper(cmd)
  {
    StripIsTrimmed(line);
    Lower(Strip(line))
  }

  /** Surrounding whitespace is ignored and the rest is lower-cased: a
      trimmed command padded with any whitespace normalises to its lower-case
      form. */
  lemma NormalisePadded(pre: string, cmd: string, post: string)
    requires AllSpace(pre) && AllSpace(post) && Trimmed(cmd)
    ensures Normalise(pre + cmd + post) == Lower(cmd)
  {
    StripPadded(pre, cmd, post);
  }

  /** Normalising twice changes nothing more. */
  lemma NormaliseIdempotent(line: string)
    ensures Normalise(Normalise(line)) == Normalise(line)
  {
    var cmd := Normalise(line);
    assert [] + cmd + [] == cmd;
    NormalisePadded([], cmd, []);
    assert Lower(cmd) == cmd;
  }

  /** A typed answer as the arm prompt receives it: capitals and the line's
      padding do not matter. */
  lemma NormaliseYes()
    ensures Normalise(" YES\n") == "yes"
  {
    assert " YES\n" == " " + "YES" + "\n";
    NormalisePadded(" ", "YES", "\n");
  }

  /** A padded movement key normalises to the lower-case key. */
  lemma NormaliseW()
    ensures Normalise(" W ") == "w"
  {
    assert " W " == " " + "W" + " ";
    NormalisePadded(" ", "W", " ");
  }

  /** What a normalised line asks for. */
  datatype ReplCommand =
    | Quit                        // quit / exit
    | Takeoff                     // elevatexy_final.py only
    | ArmTakeoff                  // elevatexy_working.py only ("arm")
    | Move(direction: string)
    | Land
    | Status
    | Blank
    | Unknown(text: string)

  /** The dispatch of run_interactive (elevatexy_final.py). */
  function ParseFinal(line: string): (c: ReplCommand)
    ensures c == Quit <==> Normalise(line) == "quit" || Normalise(line) == "exit"
    ensures c == Takeoff <==> Normalise(line) == "takeoff"
    ensures c.Move? <==> IsMoveKey(Normalise(line))
    ensures c.Move? ==> c.direction == Normalise(line)
    ensures c == Land <==> Normalise(line) == "land"
    ensures c == Status <==> Normalise(line) == "status"
    ensures c == Blank <==> Normalise(line) == ""
    ensures c.Unknown? <==> !IsMoveKey(Normalise(line))
                            && Normalise(line) !in {"quit", "exit", "takeoff", "land", "status", ""}
    ensures c.Unknown? ==> c.text == Normalise(line)
    ensures c != ArmTakeoff
  {
    var cmd := Normalise(line);
    if cmd == "quit" || cmd == "exit" then Quit
    else if cmd == "takeoff" then Takeoff
    else if IsMoveKey(cmd) then Move(cmd)
    else if cmd == "land" then Land
    else if cmd == "status" then Status
    else if cmd == "" then Blank
    else Unknown(cmd)
  }

  /** The dispatch of run (elevatexy_working.py): "arm" in place of "takeoff". */
  function ParseWorking(line: string): (c: ReplCommand)
    ensures c == Quit <==> Normalise(line) == "quit" || Normalise(line) == "exit"
    ensures c == ArmTakeoff <==> Normalise(line) == "arm"
    ensures c.Move? <==> IsMoveKey(Normalise(line))
    ensures c.Move? ==> c.direction == Normalise(line)
    ensures c == Land <==> Normalise(line) == "land"
    ensures c == Status <==> Normalise(line) == "status"
    ensures c == Blank <==> Normalise(line) == ""
    ensures c.Unknown? <==> !IsMoveKey(Normalise(line))
                            && Normalise(line) !in {"quit", "exit", "arm", "land", "status", ""}
    ensures c.Unknown? ==> c.text == Normalise(line)
    ensures c != Takeoff
  {
    var cmd := Normalise(line);
    if cmd == "quit" || cmd == "exit" then Quit
    else if cmd == "arm" then ArmTakeoff
    else if IsMoveKey(cmd) then Move(cmd)
    else if cmd == "land" then Land
    else if cmd == "status" then Status
    else if cmd == "" then Blank
    else Unknown(cmd)
  }

  /** The two front ends agree on every line except their arming/takeoff word. */
  lemma ParsersAgree(line: string)
    ensures Normalise(line) != "takeoff" && Normalise(line) != "arm" ==> ParseFinal(line) == ParseWorking(line)
    ensures Normalise(line) == "takeoff" ==> ParseWorking(line) == Unknown("takeoff")
    ensures Normalise(line) == "arm" ==> ParseFinal(line) == Unknown("arm")
  {
  }

  /** ElevateXY of elevatexy_final.py. */
  class ElevateXY {
    var vehicle: Vehicle?
    var speed: real

    constructor ()
      ensures vehicle == null && speed == DefaultSpeed
    {
      vehicle := null;
      speed := DefaultSpeed;
    }

    /** connect_and_verify after the operator pressed ENTER: `link` is the
        connected vehicle, or null when connect raised.  Success needs a
        connection whose telemetry reports armed. */
    method ConnectAndVerify(link: Vehicle?) returns (ok: bool)
      modifies this`vehicle
      ensures ok <==> link != null && link.armed
      ensures vehicle == (if link != null then link else old(vehicle))
    {
      if link == null {
        return false;
      }
      vehicle := link;
      ok := vehicle.armed;
    }

    /** set_velocity: sent unconditionally (no armed check), yaw rate zero. */
    method SetVelocity(vx: real, vy: real, vz: real)
      requires vehicle != null
      modifies vehicle
      ensures vehicle.sent == old(vehicle.sent) + [VelocityTarget(Velocity(vx, vy, vz, 0.0))]
      ensures vehicle.armed == old(vehicle.armed)
    {
      vehicle.Send(VelocityTarget(Velocity(vx, vy, vz, 0.0)));
    }

    /** move: a table direction sends its vector and, after the pulse, zero;
        any other direction sends nothing. */
    method Move(direction: string)
      requires vehicle != null
      modifies vehicle
      ensures vehicle.sent == old(vehicle.sent) + MovePulse(direction, speed)
      ensures vehicle.armed == old(vehicle.armed)
    {
      var mv := MoveVector(direction, speed);
      if mv.Some? {
        var v := mv.value;
        SetVelocity(v.vx, v.vy, v.vz);
        SetVelocity(0.0, 0.0, 0.0);
      }
    }

    /** land, taking the outcome of its wait: it returns only once telemetry
        reports the vehicle disarmed.  The LAND mode change itself is not a
        logged message here. */
    method Land()
      requires vehicle != null
      modifies vehicle
      ensures !vehicle.armed && vehicle.sent == old(vehicle.sent)
    {
      vehicle.armed := false;
    }

    /** One line of run_interactive: quit lands first when armed and ends the
        loop; a move key pulses; land lands; everything else sends nothing. */
    method Step(line: string) returns (quit: bool)
      requires vehicle != null
      modifies vehicle
      ensures quit <==> ParseFinal(line) == Quit
      ensures vehicle.sent == old(vehicle.sent) + MovePulse(Normalise(line), speed)
      ensures ParseFinal(line) == Quit || ParseFinal(line).Land? ==> !vehicle.armed
      ensures ParseFinal(line) != Quit && !ParseFinal(line).Land? ==> vehicle.armed == old(vehicle.armed)
    {
      var cmd := ParseFinal(line);
      quit := false;
      match cmd {
        case Quit =>
          if vehicle.armed {
            Land();
          }
          quit := true;
        case Move(direction) =>
          Move(direction);
        case Land =>
          Land();
        case _ =>
          // takeoff, status, blank and unknown lines send no velocity
      }
    }
  }

  /** ElevateXYFinal of elevatexy_working.py. */
  class ElevateXYFinal {
    var vehicle: Vehicle?
    var speed: real

    constructor ()
      ensures vehicle == null && speed == DefaultSpeed
    {
      vehicle := null;
      speed := DefaultSpeed;
    }

    /** connect: the link is recorded and the connection always reported good. */
    method Connect(link: Vehicle) returns (ok: bool)
      modifies this`vehicle
      ensures ok && vehicle == link
    {
      vehicle := link;
      ok := true;
    }

    /** arm_and_takeoff with the operator's answer and the arming wait's
        outcome as inputs: only an answer normalising to "yes" goes on; it sends
        one forced ARM_DISARM (param2 = 21196) and succeeds iff the vehicle
        then reports armed. */
    method ArmAndTakeoff(response: string, armedAfterWait: bool) returns (ok: bool)
      requires vehicle != null
      modifies vehicle
      ensures ok <==> Normalise(response) == "yes" && armedAfterWait
      ensures Normalise(response) != "yes" ==> vehicle.sent == old(vehicle.sent) && vehicle.armed == old(vehicle.armed)
      ensures Normalise(response) == "yes" ==>
                vehicle.sent == old(vehicle.sent) + [ArmDisarm(true, ForceArmCode)] && vehicle.armed == armedAfterWait
    {
      if Normalise(response) != "yes" {
        return false;
      }
      vehicle.Send(ArmDisarm(true, ForceArmCode));
      vehicle.armed := armedAfterWait;
      if !vehicle.armed {
        return false;
      }
      ok := true;
    }

    method SetVelocity(vx: real, vy: real, vz: real)
      requires vehicle != null
      modifies vehicle
      ensures vehicle.sent == old(vehicle.sent) + [VelocityTarget(Velocity(vx, vy, vz, 0.0))]
      ensures vehicle.armed == old(vehicle.armed)
    {
      vehicle.Send(VelocityTarget(Velocity(vx, vy, vz, 0.0)));
    }

    method Move(direction: string)
      requires vehicle != null
      modifies vehicle
      ensures vehicle.sent == old(vehicle.sent) + MovePulse(direction, speed)
      ensures vehicle.armed == old(vehicle.armed)
    {
      var mv := MoveVector(direction, speed);
      if mv.Some? {
        var v := mv.value;
        SetVelocity(v.vx, v.vy, v.vz);
        SetVelocity(0.0, 0.0, 0.0);
      }
    }

    method Land()
      requires vehicle != null
      modifies vehicle
      ensures !vehicle.armed && vehicle.sent == old(vehicle.sent)
    {
      vehicle.armed := false;
    }

    /** One line of run: as in elevatexy_final.py, with "arm" running
        arm_and_takeoff (its prompt answer and arming outcome as inputs). */
    method Step(line: string, response: string, armedAfterWait: bool) returns (quit: bool)
      requires vehicle != null
      modifies vehicle
      ensures quit <==> ParseWorking(line) == Quit
      ensures ParseWorking(line) != ArmTakeoff ==> vehicle.sent == old(vehicle.sent) + MovePulse(Normalise(line), speed)
      ensures ParseWorking(line) == ArmTakeoff ==>
                vehicle.sent == old(vehicle.sent) + (if Normalise(response) == "yes" then [ArmDisarm(true, ForceArmCode)] else [])
      ensures ParseWorking(line) == ArmTakeoff ==>
                vehicle.armed == (if Normalise(response) == "yes" then armedAfterWait else old(vehicle.armed))
      ensures ParseWorking(line) == Quit || ParseWorking(line).Land? ==> !vehicle.armed
      ensures ParseWorking(line) != Quit && ParseWorking(line) != ArmTakeoff && !ParseWorking(line).Land? ==>
                vehicle.armed == old(vehicle.armed)
    {
      var cmd := ParseWorking(line);
      quit := false;
      match cmd {
        case Quit =>
          if vehicle.armed {
            Land();
          }
          quit := true;
        case ArmTakeoff =>
          var _ := ArmAndTakeoff(response, armedAfterWait);
        case Move(direction) =>
          Move(direction);
        case Land =>
          Land();
        case _ =>
      }
    }
  }
}
