/**
 * The dashboard component's state (App.tsx) as one object, with one method
 * per event handler or timer callback. Each callback runs atomically; the
 * timers that schedule them, and the interleaving of overlapping detection
 * sequences, are left to the caller, which supplies the random draws, the
 * clock readings and the interval handles as arguments.
 */
module App {
  import opened Types
  import opened Simulation
  import Reports

  const IdleMessage: string := "AI AGENT: Idle. Waiting for RED signal..."
  const CrossMessage: string := "POLE 1 (Stop Line): CROSS DETECTED. Signal: RED"
  const ChallanMessage: string := "AI AGENT: Challan generated and evidence archived."
  const PausedMessage: string := "System: Autonomous monitoring paused."
  const ActivatedMessage: string := "System: Autonomous AI Agent activated."

  function IdentityMessage(v: Vehicle): string
  {
    "POLE 1: Extracting Identity [ANPR: " + v.plate + " | Type: " + VehicleTypeName(v.kind)
      + " | Color: " + v.color + "]"
  }

  function ScanMessage(plate: string): string
  {
    "POLE 2 (Confirmation): Scanning for re-identification match for " + plate + "..."
  }

  function ReIdMessage(plate: string): string
  {
    "RE-ID SUCCESS: Confirmation complete for " + plate + ". VIOLATION CONFIRMED."
  }

  class AppState {
    var signal: SignalState
    /** Most recent first. */
    var violations: seq<Violation>
    /** Most recent first, at most LogCapacity entries. */
    var systemLogs: seq<string>
    /** The plate each camera pole is currently highlighting. */
    var activeDetections: map<Pole, string>
    var isSimulating: bool
    /** The handle kept in the interval reference; it is never reset to empty. */
    var intervalRef: Option<nat>
    /** The signal value the installed autonomous trigger closed over. */
    var autoSignal: SignalState
    /** The periodic triggers installed and not yet cleared. */
    ghost var liveIntervals: set<nat>

    ghost predicate Valid()
      reads this
      ensures Valid() ==> |systemLogs| <= LogCapacity
      ensures Valid() ==> forall v :: v in violations ==> v.status != Dismissed
      ensures Valid() ==> (isSimulating <==> liveIntervals != {})
    {
      && |systemLogs| <= LogCapacity
      && (forall v :: v in violations ==> Lifecycle(v))
      && (isSimulating ==> intervalRef.Some? && intervalRef.value > 0 && liveIntervals == {intervalRef.value})
      && (!isSimulating ==> liveIntervals == {})
    }

    constructor ()
      ensures Valid()
      ensures signal == Green && violations == [] && systemLogs == [] && activeDetections == map[]
      ensures !isSimulating && intervalRef == None && liveIntervals == {}
    {
      signal := Green;
      violations := [];
      systemLogs := [];
      activeDetections := map[];
      isSimulating := false;
      intervalRef := None;
      autoSignal := Green;
      liveIntervals := {};
    }

    method AddLog(msg: string)
      requires Valid()
      modifies this`systemLogs
      ensures Valid()
      ensures systemLogs == PushLog(old(systemLogs), msg)
    {
      systemLogs := PushLog(systemLogs, msg);
    }

    /** The signal timer's callback. */
    method Tick()
      requires Valid()
      modifies this`signal
      ensures Valid()
      ensures signal == NextSignal(old(signal))
    {
      signal := NextSignal(signal);
    }

    /** The manual RED and GREEN buttons; the timer is not reset. */
    method Override(target: SignalState)
      requires Valid()
      requires target == Red || target == Green
      modifies this`signal
      ensures Valid()
      ensures signal == target
    {
      signal := target;
    }

    /**
     * What a trigger that saw the signal as seen does before its pole-2
     * timer: anything but RED only logs the idle notice; RED fabricates the
     * vehicle, logs the pole-1 crossing and its identity, and highlights the
     * plate on pole 1.
     */
    twostate predicate Triggered(seen: SignalState, d: VehicleDraw, now: int, new run: Option<Run>)
      requires ValidDraw(d)
      reads this
    {
      && violations == old(violations)
      && if seen != Red then
           && run == None
           && activeDetections == old(activeDetections)
           && systemLogs == PushLog(old(systemLogs), IdleMessage)
         else
           var v := DrawVehicle(d);
           && run == Some(Run(v, now))
           && activeDetections == old(activeDetections)[1 := v.plate]
           && systemLogs == PushLog(PushLog(old(systemLogs), CrossMessage), IdentityMessage(v))
    }

    method StartRun(seen: SignalState, d: VehicleDraw, now: int) returns (run: Option<Run>)
      requires Valid() && ValidDraw(d)
      modifies this`systemLogs, this`activeDetections
      ensures Valid()
      ensures Triggered(seen, d, now, run)
    {
      if seen != Red {
        AddLog(IdleMessage);
        return None;
      }
      var vehicle := DrawVehicle(d);
      AddLog(CrossMessage);
      AddLog(IdentityMessage(vehicle));
      activeDetections := activeDetections[1 := vehicle.plate];
      run := Some(Run(vehicle, now));
    }

    /** The manual trigger: gated on the signal as it is now. */
    method Trigger(d: VehicleDraw, now: int) returns (run: Option<Run>)
      requires Valid() && ValidDraw(d)
      modifies this`systemLogs, this`activeDetections
      ensures Valid()
      ensures Triggered(signal, d, now, run)
      ensures run.Some? <==> signal == Red
    {
      run := StartRun(signal, d, now);
    }

    /** The pole-2 timer: highlight pole 2 and prepend the PENDING record. */
    method Pole2Step(run: Run, violationId: string, now: int) returns (v: Violation)
      requires Valid()
      modifies this`systemLogs, this`activeDetections, this`violations
      ensures Valid()
      ensures v == NewViolation(violationId, run, now)
      ensures v.status == Pending && v.aiJustification == None && v.pole1Evidence != v.pole2Evidence
      ensures violations == [v] + old(violations)
      ensures activeDetections == old(activeDetections)[2 := run.vehicle.plate]
      ensures systemLogs == PushLog(PushLog(old(systemLogs), ScanMessage(run.vehicle.plate)), ReIdMessage(run.vehicle.plate))
    {
      AddLog(ScanMessage(run.vehicle.plate));
      activeDetections := activeDetections[2 := run.vehicle.plate];
      v := NewViolation(violationId, run, now);
      violations := [v] + violations;
      AddLog(ReIdMessage(run.vehicle.plate));
    }

    /**
     * The report for v has resolved: every record carrying v's id becomes
     * CONFIRMED with the report attached; all other records stay as they were.
     */
    method Confirm(v: Violation, reply: Reports.Reply)
      requires Valid()
      modifies this`violations, this`systemLogs
      ensures Valid()
      ensures violations == ConfirmById(old(violations), v.id, Reports.Justification(reply))
      ensures |violations| == |old(violations)|
      ensures forall k :: 0 <= k < |violations| && old(violations)[k].id != v.id ==> violations[k] == old(violations)[k]
      ensures forall k :: 0 <= k < |violations| && old(violations)[k].id == v.id ==>
                violations[k] == old(violations)[k].(status := Confirmed, aiJustification := Some(Reports.Justification(reply)))
      ensures systemLogs == PushLog(old(systemLogs), ChallanMessage)
    {
      var report := Reports.Justification(reply);
      ConfirmByIdLifecycle(violations, v.id, report);
      forall k | 0 <= k < |violations|
        ensures var r := ConfirmById(violations, v.id, report);
          && (violations[k].id != v.id ==> r[k] == violations[k])
          && (violations[k].id == v.id ==> r[k] == violations[k].(status := Confirmed, aiJustification := Some(report)))
      {
        ConfirmByIdAt(violations, v.id, report, k);
      }
      violations := ConfirmById(violations, v.id, report);
      AddLog(ChallanMessage);
    }

    /** The reset timer: both poles stop highlighting, whichever run set them. */
    method ClearDetections()
      requires Valid()
      modifies this`activeDetections
      ensures Valid()
      ensures activeDetections == map[]
    {
      activeDetections := map[];
    }

    /**
     * Flip autonomous mode. Turning it off clears the interval the reference
     * holds; turning it on installs a new one (the browser's handle is
     * newHandle, always positive) whose trigger closes over the current signal.
     */
    method ToggleAutoSim(newHandle: nat)
      requires Valid()
      requires newHandle > 0
      modifies this`isSimulating, this`intervalRef, this`liveIntervals, this`systemLogs, this`autoSignal
      ensures Valid()
      ensures isSimulating == !old(isSimulating)
      ensures old(isSimulating) ==>
                && liveIntervals == {}
                && intervalRef == old(intervalRef) && autoSignal == old(autoSignal)
                && systemLogs == PushLog(old(systemLogs), PausedMessage)
      ensures !old(isSimulating) ==>
                && liveIntervals == {newHandle}
                && intervalRef == Some(newHandle) && autoSignal == signal
                && systemLogs == PushLog(old(systemLogs), ActivatedMessage)
    {
      if isSimulating {
        if intervalRef.Some? && intervalRef.value != 0 {
          liveIntervals := liveIntervals - {intervalRef.value};
        }
        isSimulating := false;
        AddLog(PausedMessage);
      } else {
        isSimulating := true;
        liveIntervals := liveIntervals + {newHandle};
        intervalRef := Some(newHandle);
        autoSignal := signal;
        AddLog(ActivatedMessage);
      }
    }

    /**
     * One firing of the autonomous interval, as written: the trigger it calls
     * is the one captured when the mode was turned on, so its RED gate reads
     * autoSignal rather than the current signal.
     */
    method AutoTickAsWritten(roll: int, d: VehicleDraw, now: int) returns (run: Option<Run>)
      requires Valid() && isSimulating
      requires 0 <= roll < 10 && ValidDraw(d)
      modifies this`systemLogs, this`activeDetections
      ensures Valid()
      ensures AutoFires(roll) ==> Triggered(autoSignal, d, now, run)
      ensures !AutoFires(roll) ==> run == None && unchanged(this)
      ensures run.Some? <==> AutoFires(roll) && autoSignal == Red
    {
      run := None;
      if AutoFires(roll) {
        run := StartRun(autoSignal, d, now);
      }
    }

    /** One firing of the autonomous interval, gated on the current signal. */
    method AutoTick(roll: int, d: VehicleDraw, now: int) returns (run: Option<Run>)
      requires Valid() && isSimulating
      requires 0 <= roll < 10 && ValidDraw(d)
      modifies this`systemLogs, this`activeDetections
      ensures Valid()
      ensures AutoFires(roll) ==> Triggered(signal, d, now, run)
      ensures !AutoFires(roll) ==> run == None && unchanged(this)
      ensures run.Some? <==> AutoFires(roll) && signal == Red
    {
      run := None;
      if AutoFires(roll) {
        run := StartRun(signal, d, now);
      }
    }
  }

  /**
   * Autonomous mode turned on at startSignal, then one tick, then one firing
   * of its interval with a roll above the threshold; reports the signal at
   * the firing and whether a detection started. asWritten selects the
   * firing as the source has it or the one gated on the current signal.
   */
  method AutoScenario(startSignal: SignalState, asWritten: bool, d: VehicleDraw)
    returns (signalAtFiring: SignalState, started: bool)
    requires startSignal == Red || startSignal == Green
    requires ValidDraw(d)
    ensures signalAtFiring == NextSignal(startSignal)
    ensures asWritten ==> started == (startSignal == Red)
    ensures !asWritten ==> started == (signalAtFiring == Red)
  {
    var app := new AppState();
    app.Override(startSignal);
    app.ToggleAutoSim(1);
    app.Tick();
    var run;
    if asWritten {
      run := app.AutoTickAsWritten(9, d, 0);
    } else {
      run := app.AutoTick(9, d, 0);
    }
    signalAtFiring, started := app.signal, run.Some?;
  }

  /**
   * As written, autonomous mode switched on at RED starts a detection
   * after the signal turned GREEN, and switched on at YELLOW (reached from
   * the initial GREEN) starts none once the signal is RED.
   */
  method StaleSignalScenario(d: VehicleDraw)
    returns (startedAtGreen: bool, startedAtRed: bool)
    requires ValidDraw(d)
    ensures startedAtGreen && !startedAtRed
  {
    var signal;
    signal, startedAtGreen := AutoScenario(Red, true, d);
    assert signal == Green;
    var app := new AppState();
    app.Tick();
    app.ToggleAutoSim(1);
    app.Tick();
    assert app.signal == Red;
    var run := app.AutoTickAsWritten(9, d, 0);
    startedAtRed := run.Some?;
  }

  /** With the gate reading the current signal, the same two sequences behave as intended. */
  method CurrentSignalScenario(d: VehicleDraw)
    returns (startedAtGreen: bool, startedAtRed: bool)
    requires ValidDraw(d)
    ensures !startedAtGreen && startedAtRed
  {
    var signal;
    signal, startedAtGreen := AutoScenario(Red, false, d);
    var app := new AppState();
    app.Tick();
    app.ToggleAutoSim(1);
    app.Tick();
    var run := app.AutoTick(9, d, 0);
    startedAtRed := run.Some?;
  }

  /**
   * A full detection at RED whose report call fails: one PENDING record is
   * created and then CONFIRMED with the fixed fallback text.
   */
  method FailedReportScenario(d: VehicleDraw, violationId: string, t1: int, t2: int)
    returns (pending: Violation, confirmed: Violation, count: nat)
    requires ValidDraw(d)
    ensures pending.status == Pending && pending.aiJustification == None
    ensures confirmed.status == Confirmed && confirmed.aiJustification == Some(Reports.FallbackOnError)
    ensures confirmed.id == pending.id == violationId && confirmed.vehicle == pending.vehicle
    ensures count == 1
  {
    var app := new AppState();
    app.Override(Red);
    var run := app.Trigger(d, t1);
    pending := app.Pole2Step(run.value, violationId, t2);
    app.Confirm(pending, Reports.Failed);
    app.ClearDetections();
    confirmed := app.violations[0];
    count := |app.violations|;
  }

  /** Turning autonomous mode on and then off leaves no periodic trigger installed. */
  method ToggleTwiceScenario() returns (simulating: bool, logged: nat, ghost live: set<nat>)
    ensures !simulating && logged == 2 && live == {}
  {
    var app := new AppState();
    app.ToggleAutoSim(7);
    app.ToggleAutoSim(8);
    simulating, logged, live := app.isSimulating, |app.systemLogs|, app.liveIntervals;
  }
}
