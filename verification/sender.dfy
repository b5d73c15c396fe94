/** ContinuousCommandSender (manual_control_fix.py): a lock-protected velocity
    snapshot that a background loop streams at 10 Hz to a present, armed
    vehicle.  The thread is modelled by its loop body, one tick per call.
    Each call reads or writes the whole snapshot at once, which is what the
    lock guarantees here; the tkinter and pynput sessions are modelled with
    the same whole-vector calls although their source takes no lock, so a
    tick reading a half-written vector is not captured there. */
module CommandSender {
  import opened Link

  class ContinuousCommandSender {
    var vehicle: Vehicle?
    var active: bool
    var hasThread: bool            // self.thread is not None
    var spawned: nat               // threads started so far
    var vx: real
    var vy: real
    var vz: real
    var yawRate: real

    /** A running loop always has its thread, and a thread exists once one was started. */
    ghost predicate Valid()
      reads this
    {
      (active ==> hasThread) && (hasThread <==> spawned > 0)
    }

    /** The snapshot the loop sends. */
    function Command(): Velocity
      reads this
    {
      Velocity(vx, vy, vz, yawRate)
    }

    constructor (vehicle: Vehicle?)
      ensures Valid()
      ensures this.vehicle == vehicle && !active && !hasThread && spawned == 0
      ensures Command() == Stopped
    {
      this.vehicle := vehicle;
      active, hasThread := false, false;
      spawned := 0;
      vx, vy, vz, yawRate := 0.0, 0.0, 0.0, 0.0;
    }

    /** set_velocity: the whole snapshot is replaced under the lock. */
    method SetVelocity(v: Velocity)
      modifies this`vx, this`vy, this`vz, this`yawRate
      ensures Command() == v
    {
      vx, vy, vz, yawRate := v.vx, v.vy, v.vz, v.yawRate;
    }

    /** One tick of _send_loop: while active, the snapshot goes to a present,
        armed vehicle; `linkOk` is false when send_mavlink raises, in which
        case nothing goes out and the loop carries on. */
    method SendLoopIteration(linkOk: bool) returns (continues: bool)
      modifies vehicle
      ensures continues == active
      ensures vehicle != null ==> vehicle.armed == old(vehicle.armed)
      ensures vehicle != null ==>
                vehicle.sent == old(vehicle.sent) + (if active && linkOk then Gated(old(vehicle.armed), Command()) else [])
    {
      continues := active;
      if active && vehicle != null && vehicle.armed {
        var snapshot := Command();
        if linkOk {
          vehicle.Send(VelocityTarget(snapshot));
        }
      }
    }

    /** start: idempotent; a second start while running spawns no second thread. */
    method Start()
      requires Valid()
      modifies this`active, this`hasThread, this`spawned
      ensures Valid() && active
      ensures spawned == old(spawned) + (if old(active) then 0 else 1)
    {
      if !active {
        active := true;
        hasThread := true;
        spawned := spawned + 1;
      }
    }

    /** stop: the loop is told to end; no final zero command is sent and the
        snapshot is left as it was (the join's timeout is not modelled). */
    method Stop()
      requires Valid()
      modifies this`active
      ensures Valid() && !active
    {
      active := false;
    }
  }

  /** Start twice, set a vector, run two ticks on an armed vehicle, stop, run
      one more tick: one thread, the same snapshot sent on each tick while
      running, nothing after stop. */
  method SenderLifecycle(v: Velocity) returns (threads: nat, log: seq<Message>, runningAfterStop: bool)
    ensures threads == 1
    ensures log == [VelocityTarget(v), VelocityTarget(v)]
    ensures !runningAfterStop
  {
    var drone := new Vehicle(true);
    var sender := new ContinuousCommandSender(drone);
    sender.Start();
    sender.Start();
    sender.SetVelocity(v);
    var _ := sender.SendLoopIteration(true);
    var _ := sender.SendLoopIteration(true);
    sender.Stop();
    runningAfterStop := sender.SendLoopIteration(true);
    threads := sender.spawned;
    log := drone.sent;
  }
}
