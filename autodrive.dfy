/** The vacuum-interlocked HV auto-drive governor of the SCANDINOVA device support.

    One Channel is one SCANDINOVA_AUTO_DRIVE_INFO record: the configuration written by
    the record layer and the transient flags and timers written only by its own drive
    thread. A tick of the drive thread reads a Snapshot of its parent device, may
    repair a hardware interlock, classifies the vacuum reading into one of five bands
    and, where the latched flags allow, lets increaseHv issue one ramp step.

    The value-level functions (RampSpec, BandStep, TickSpec, Run) are the
    specification; the Channel methods do the same work step by step on the record's
    fields and are proved equal to them. */
module AutoDrive {
  import opened Actuation

  /** Sizes of the global device table SDN and of each device's channel table. */
  const MaxDeviceCount: nat := 1   // MAX_SCANDINOVA_CNT
  const MaxVacuumCount: nat := 6   // MAX_SCANDINOVA_VACUUM_COUNT

  /** Constants hard-coded in increaseHv. */
  const FeedbackTolerance: real := 2.0   // dbOffset: read-back must be within this of the setpoint
  const FastRegimeLimit: real := 1000.0  // at or below this read-back the fast-recovery regime applies
  const FastInterval: real := 10.0       // minimum seconds between steps in that regime
  const FastStep: real := 10.0           // volts per step in that regime

  datatype Priority = Slave | Master

  /** What one tick reads from the shared device table: the parent device's state
      code, HV read-back and HV setpoint (all stored as doubles), and the value behind
      the channel's vacuum pointer. */
  datatype Snapshot = Snapshot(stateRead: real, hvRead: real, hvSet: real, vacuum: real)

  /** The inputs of one tick: the snapshot, the state code read again after the
      interlock reset's settle time, and the clock reading increaseHv takes. */
  datatype TickInput = TickInput(snap: Snapshot, stateAfterReset: real, clock: real)

  /** The configuration part of a channel record. */
  datatype ChannelConfig = ChannelConfig(
    use: int, priority: Priority, parentId: nat, idx: nat, vacuumDevice: nat,
    hvMaxPoint: real,
    tripHighLimit: real, alarmHighLimit: real, alarmLowLimit: real, tripLowLimit: real,
    hvTripGain: real, hvAlarmGain: real,
    tripBlockingTime: real, alarmBlockingTime: real, alarmDecreaseTime: real,
    hvRampSpeed: real, hvRampCheckTime: real)

  /** The transient part of a channel record, written only by its drive thread. */
  datatype ChannelState = ChannelState(
    lastIncrease: real, onArcing: bool, onAlarm: bool, onMidPoint: bool, midPoint: real)

  /** The new transient state and the commands issued, in order. */
  datatype Outcome = Outcome(next: ChannelState, commands: seq<Command>)

  /** The five vacuum bands, from the lowest reading to the highest. */
  datatype Band = TripLow | RecoveringLow | Normal | AlarmHigh | TripHigh

  function Severity(b: Band): nat
  {
    match b
    case TripLow => 0
    case RecoveringLow => 1
    case Normal => 2
    case AlarmHigh => 3
    case TripHigh => 4
  }

  /** The threshold at which band `b` begins (the lowest band has none). */
  function Entry(c: ChannelConfig, b: Band): real
    requires b != TripLow
  {
    match b
    case RecoveringLow => c.tripLowLimit
    case Normal => c.alarmLowLimit
    case AlarmHigh => c.alarmHighLimit
    case TripHigh => c.tripHighLimit
  }

  /** The reading reaches the threshold of band `b`. */
  predicate Reaches(v: real, c: ChannelConfig, b: Band)
  {
    b != TripLow && v >= Entry(c, b)
  }

  /** The configuration ordering the thresholds are meant to keep; nothing enforces it. */
  predicate Ordered(c: ChannelConfig)
  {
    c.tripLowLimit < c.alarmLowLimit <= c.alarmHighLimit < c.tripHighLimit
  }

  /** The band of a reading: tested from the most severe threshold down, first match wins. */
  function Classify(v: real, c: ChannelConfig): (b: Band)
    ensures b == TripLow || Reaches(v, c, b)
    ensures forall b' :: Severity(b') > Severity(b) ==> !Reaches(v, c, b')
  {
    if v >= c.tripHighLimit then TripHigh
    else if v >= c.alarmHighLimit then AlarmHigh
    else if v >= c.alarmLowLimit then Normal
    else if v >= c.tripLowLimit then RecoveringLow
    else TripLow
  }

  /** C's conversion of a double to int, which truncates toward zero. */
  function TruncToInt(x: real): (r: int)
    ensures x >= 0.0 ==> r as real <= x < r as real + 1.0
    ensures x < 0.0 ==> r as real - 1.0 < x <= r as real
  {
    if x >= 0.0 then x.Floor else -((-x).Floor)
  }

  /** fmin on two numbers. */
  function Min(a: real, b: real): real
  {
    if a <= b then a else b
  }

  /** The flags whose combination a run keeps: a channel that is arcing is also on its mid-point. */
  predicate Latched(s: ChannelState)
  {
    s.onArcing ==> s.onMidPoint
  }

  // ---------------------------------------------------------------------------
  // increaseHv

  /** The minimum time between two ramp steps in the current regime. */
  function RampInterval(c: ChannelConfig, snap: Snapshot): real
  {
    if snap.hvRead <= FastRegimeLimit then FastInterval else c.hvRampCheckTime
  }

  /** The size of one ramp step in the current regime. */
  function RampStepSize(c: ChannelConfig, snap: Snapshot): real
  {
    if snap.hvRead <= FastRegimeLimit then FastStep else c.hvRampSpeed
  }

  /** The read-back the ramp must stay below: the mid-point after a trip, else the maximum. */
  function Ceiling(c: ChannelConfig, s: ChannelState): real
  {
    if s.onMidPoint then s.midPoint else c.hvMaxPoint
  }

  /** The three conditions under which a Master channel issues a step. */
  predicate RampAllowed(c: ChannelConfig, s: ChannelState, snap: Snapshot, clock: real)
  {
    && clock - s.lastIncrease >= RampInterval(c, snap)
    && snap.hvRead >= snap.hvSet - FeedbackTolerance
    && snap.hvRead < Ceiling(c, s) - FeedbackTolerance
  }

  /** The command issued a ramp step. */
  predicate IsStep(cs: seq<Command>)
  {
    |cs| == 1 && cs[0].RampSetpoint?
  }

  /** One call of increaseHv on a channel in state `s`. */
  function RampSpec(c: ChannelConfig, s: ChannelState, snap: Snapshot, clock: real): (r: Outcome)
    ensures c.priority == Slave ==> r == Outcome(s, [])
    ensures IsStep(r.commands) <==> c.priority != Slave && RampAllowed(c, s, snap, clock)
    ensures IsStep(r.commands) ==>
              r.commands[0].volts == Min(snap.hvSet + RampStepSize(c, snap), c.hvMaxPoint)
    ensures !IsStep(r.commands) ==>
              r.commands == (if c.priority != Slave && s.onMidPoint then [Wait(c.tripBlockingTime)] else [])
    ensures RampsAtMost(r.commands, c.hvMaxPoint)
    ensures r.next.lastIncrease == (if IsStep(r.commands) then clock else s.lastIncrease)
    ensures r.next.onMidPoint == (s.onMidPoint && (c.priority == Slave || IsStep(r.commands)))
    ensures r.next.onArcing == s.onArcing && r.next.onAlarm == s.onAlarm
    ensures r.next.midPoint == s.midPoint
  {
    if c.priority == Slave then Outcome(s, [])
    else if RampAllowed(c, s, snap, clock) then
      Outcome(s.(lastIncrease := clock),
              [RampSetpoint(Min(snap.hvSet + RampStepSize(c, snap), c.hvMaxPoint))])
    else if s.onMidPoint then
      Outcome(s.(onMidPoint := false), [Wait(c.tripBlockingTime)])
    else
      Outcome(s, [])
  }

  // ---------------------------------------------------------------------------
  // runAutoDriveThreadFunc

  /** The hardware interlock reset at the top of an enabled tick. */
  function InterlockCommands(c: ChannelConfig, snap: Snapshot, stateAfterReset: real): (cs: seq<Command>)
    ensures cs == [] <==> TruncToInt(snap.stateRead) == RunningMode
    ensures NoRamp(cs)
  {
    if TruncToInt(snap.stateRead) != RunningMode then
      [Wait(c.tripBlockingTime), ControlWord(ResetWord), Wait(SettleTime)] +
      (if TruncToInt(stateAfterReset) == ReadyState
       then [SetHv(RestartVoltage), Wait(SettleTime), SetMode(RunningMode)]
       else [])
    else []
  }

  /** What the band of the reading makes the tick do. */
  function BandStep(c: ChannelConfig, s: ChannelState, snap: Snapshot, clock: real): (r: Outcome)
    ensures Latched(s) ==> Latched(r.next)
    ensures RampsAtMost(r.commands, c.hvMaxPoint)
    ensures c.priority == Slave ==> NoRamp(r.commands)
    ensures r.next.onArcing == (Classify(snap.vacuum, c) == TripHigh ||
                                (s.onArcing && Classify(snap.vacuum, c) != TripLow))
    ensures r.next.onAlarm == (Classify(snap.vacuum, c) == AlarmHigh ||
                               (s.onAlarm && Classify(snap.vacuum, c) != RecoveringLow))
    ensures (s.onArcing || s.onAlarm) && Severity(Classify(snap.vacuum, c)) >= Severity(Normal) ==>
              NoRamp(r.commands)
  {
    match Classify(snap.vacuum, c)
    case TripHigh =>
      Outcome(s.(onArcing := true, onMidPoint := true,
                 midPoint := snap.hvRead * c.hvTripGain / 100.0),
              [SetMode(TripMode)])
    case AlarmHigh =>
      Outcome(s.(onAlarm := true),
              [SetHv(snap.hvRead * c.hvAlarmGain / 100.0), Wait(c.alarmDecreaseTime)])
    case Normal =>
      if !s.onArcing && !s.onAlarm then RampSpec(c, s, snap, clock) else Outcome(s, [])
    case RecoveringLow =>
      var s1 := if s.onAlarm then s.(onAlarm := false) else s;
      var waited := if s.onAlarm then [Wait(c.alarmBlockingTime)] else [];
      if !s1.onAlarm && !s1.onArcing then
        var r := RampSpec(c, s1, snap, clock);
        Outcome(r.next, waited + r.commands)
      else Outcome(s1, waited)
    case TripLow =>
      if s.onArcing then
        var r := RampSpec(c, s.(onArcing := false), snap, clock);
        Outcome(r.next, [SetMode(RunningMode)] + r.commands)
      else RampSpec(c, s, snap, clock)
  }

  /** One iteration of the drive thread's loop. */
  function TickSpec(c: ChannelConfig, s: ChannelState, input: TickInput): (r: Outcome)
    ensures c.use == 0 ==> r == Outcome(s, [Wait(IdleTime)])
    ensures Latched(s) ==> Latched(r.next)
    ensures RampsAtMost(r.commands, c.hvMaxPoint)
    ensures c.priority == Slave ==> NoRamp(r.commands)
    ensures c.use != 0 ==>
              r.next.onArcing == (Classify(input.snap.vacuum, c) == TripHigh ||
                                  (s.onArcing && Classify(input.snap.vacuum, c) != TripLow))
  {
    if c.use == 0 then Outcome(s, [Wait(IdleTime)])
    else
      var b := BandStep(c, s, input.snap, input.clock);
      Outcome(b.next,
              InterlockCommands(c, input.snap, input.stateAfterReset) + b.commands + [Wait(IdleTime)])
  }

  /** A run of consecutive ticks. */
  function Run(c: ChannelConfig, s: ChannelState, inputs: seq<TickInput>): (r: Outcome)
    ensures Latched(s) ==> Latched(r.next)
    ensures RampsAtMost(r.commands, c.hvMaxPoint)
    decreases |inputs|
  {
    if inputs == [] then Outcome(s, [])
    else
      var prev := Run(c, s, inputs[..|inputs| - 1]);
      var last := TickSpec(c, prev.next, inputs[|inputs| - 1]);
      Outcome(last.next, prev.commands + last.commands)
  }

  /** Extending a run by the next input adds that input's tick. */
  lemma RunStep(c: ChannelConfig, s: ChannelState, inputs: seq<TickInput>, i: nat,
                start: seq<Command>, log: seq<Command>, state: ChannelState,
                log': seq<Command>, state': ChannelState)
    requires i < |inputs|
    requires state == Run(c, s, inputs[..i]).next && log == start + Run(c, s, inputs[..i]).commands
    requires state' == TickSpec(c, state, inputs[i]).next && log' == log + TickSpec(c, state, inputs[i]).commands
    ensures state' == Run(c, s, inputs[..i + 1]).next
    ensures log' == start + Run(c, s, inputs[..i + 1]).commands
  {
    assert inputs[..i + 1][..i] == inputs[..i];
    AppendAssoc(start, Run(c, s, inputs[..i]).commands, TickSpec(c, state, inputs[i]).commands);
  }

  // ---------------------------------------------------------------------------
  // init_ai

  /** The device whose gauge field a channel's vacuum pointer refers to; init_ai as
      written uses the channel index here (see VacuumDeviceAsWritten). */
  function VacuumDevice(devIdx: nat, i: nat): (d: nat)
    ensures devIdx < MaxDeviceCount ==> d < MaxDeviceCount
    ensures d == VacuumDeviceAsWritten(devIdx, i) <==> i == devIdx
  {
    devIdx
  }

  /** init_ai's pointer as written: &SDN[i], the device table indexed by the channel. */
  function VacuumDeviceAsWritten(devIdx: nat, i: nat): (d: nat)
    ensures d < MaxDeviceCount <==> i < MaxDeviceCount
  {
    i
  }

  /** The defaults init_ai gives channel `i` of device `devIdx` (fields it does not set are zero). */
  function DefaultConfig(devIdx: nat, i: nat): (c: ChannelConfig)
    ensures c.priority == Master <==> i == 0
    ensures c.use != 0 <==> i == 0
    ensures i == 0 ==> Ordered(c)
    ensures c.parentId == devIdx && c.idx == i
    ensures devIdx < MaxDeviceCount ==> c.vacuumDevice < MaxDeviceCount
  {
    if i == 0 then
      ChannelConfig(1, Master, devIdx, i, VacuumDevice(devIdx, i),
                    1290.0,
                    5.2, 4.8, 3.6, 3.5,
                    90.0, 100.0,
                    300.0, 30.0, 300.0,
                    1.0, 60.0)
    else
      ChannelConfig(0, Slave, devIdx, i, VacuumDevice(devIdx, i),
                    0.0,
                    0.0, 0.0, 0.0, 0.0,
                    0.0, 0.0,
                    0.0, 0.0, 0.0,
                    0.0, 0.0)
  }

  /** One SCANDINOVA_AUTO_DRIVE_INFO record. */
  class Channel {
    // configuration, written by the record layer
    var use: int
    var priority: Priority
    var parentId: nat
    var idx: nat
    var vacuumDevice: nat
    var hvMaxPoint: real
    var tripHighLimit: real
    var alarmHighLimit: real
    var alarmLowLimit: real
    var tripLowLimit: real
    var hvTripGain: real
    var hvAlarmGain: real
    var tripBlockingTime: real
    var alarmBlockingTime: real
    var alarmDecreaseTime: real
    var hvRampSpeed: real
    var hvRampCheckTime: real
    // transient state, written by the drive thread
    var lastIncrease: real
    var onArcing: bool
    var onAlarm: bool
    var onMidPoint: bool
    var midPoint: real

    function Config(): ChannelConfig
      reads this
    {
      ChannelConfig(use, priority, parentId, idx, vacuumDevice, hvMaxPoint,
                    tripHighLimit, alarmHighLimit, alarmLowLimit, tripLowLimit,
                    hvTripGain, hvAlarmGain,
                    tripBlockingTime, alarmBlockingTime, alarmDecreaseTime,
                    hvRampSpeed, hvRampCheckTime)
    }

    function State(): ChannelState
      reads this
    {
      ChannelState(lastIncrease, onArcing, onAlarm, onMidPoint, midPoint)
    }

    /** init_ai's set-up of channel `i` of device `devIdx`, the clock reading `clock`
        stamping its last increase. */
    constructor Init(devIdx: nat, i: nat, clock: real)
      ensures Config() == DefaultConfig(devIdx, i)
      ensures State() == ChannelState(clock, false, false, false, 0.0)
    {
      var d := DefaultConfig(devIdx, i);
      use, priority, parentId, idx, vacuumDevice := d.use, d.priority, d.parentId, d.idx, d.vacuumDevice;
      hvMaxPoint := d.hvMaxPoint;
      tripHighLimit, alarmHighLimit := d.tripHighLimit, d.alarmHighLimit;
      alarmLowLimit, tripLowLimit := d.alarmLowLimit, d.tripLowLimit;
      hvTripGain, hvAlarmGain := d.hvTripGain, d.hvAlarmGain;
      tripBlockingTime, alarmBlockingTime := d.tripBlockingTime, d.alarmBlockingTime;
      alarmDecreaseTime := d.alarmDecreaseTime;
      hvRampSpeed, hvRampCheckTime := d.hvRampSpeed, d.hvRampCheckTime;
      lastIncrease := clock;
      onArcing, onAlarm, onMidPoint, midPoint := false, false, false, 0.0;
    }

    /** increaseHv: at most one ramp step, decided from the snapshot and the clock. */
    method IncreaseHv(gw: Gateway, snap: Snapshot, clock: real)
      modifies this, gw
      ensures Config() == old(Config())
      ensures State() == RampSpec(old(Config()), old(State()), snap, clock).next
      ensures gw.log == old(gw.log) + RampSpec(old(Config()), old(State()), snap, clock).commands
    {
      if priority == Slave {
        return;
      }
      var offset := FeedbackTolerance;
      var elapsed := clock - lastIncrease;
      if snap.hvRead <= FastRegimeLimit {
        if onMidPoint {
          if elapsed >= FastInterval && snap.hvRead >= snap.hvSet - offset
             && snap.hvRead < midPoint - offset {
            gw.Issue(RampSetpoint(Min(snap.hvSet + FastStep, hvMaxPoint)));
            lastIncrease := clock;
          } else {
            gw.Issue(Wait(tripBlockingTime));
            onMidPoint := false;
          }
        } else {
          if elapsed >= FastInterval && snap.hvRead >= snap.hvSet - offset
             && snap.hvRead < hvMaxPoint - offset {
            gw.Issue(RampSetpoint(Min(snap.hvSet + FastStep, hvMaxPoint)));
            lastIncrease := clock;
          }
        }
      } else {
        if onMidPoint {
          if elapsed >= hvRampCheckTime && snap.hvRead >= snap.hvSet - offset
             && snap.hvRead < midPoint - offset {
            gw.Issue(RampSetpoint(Min(snap.hvSet + hvRampSpeed, hvMaxPoint)));
            lastIncrease := clock;
          } else {
            gw.Issue(Wait(tripBlockingTime));
            onMidPoint := false;
          }
        } else {
          if elapsed >= hvRampCheckTime && snap.hvRead >= snap.hvSet - offset
             && snap.hvRead < hvMaxPoint - offset {
            gw.Issue(RampSetpoint(Min(snap.hvSet + hvRampSpeed, hvMaxPoint)));
            lastIncrease := clock;
          }
        }
      }
    }

    /** The interlock reset: runs when the state code is not the running code. */
    method ResetInterlock(gw: Gateway, snap: Snapshot, stateAfterReset: real)
      modifies gw
      ensures gw.log == old(gw.log) + InterlockCommands(Config(), snap, stateAfterReset)
    {
      if TruncToInt(snap.stateRead) != RunningMode {
        gw.Issue(Wait(tripBlockingTime));
        gw.Issue(ControlWord(ResetWord));
        gw.Issue(Wait(SettleTime));
        if TruncToInt(stateAfterReset) == ReadyState {
          gw.Issue(SetHv(RestartVoltage));
          gw.Issue(Wait(SettleTime));
          gw.Issue(SetMode(RunningMode));
        }
      }
    }

    /** The band evaluation of an enabled tick, on the reading behind the vacuum pointer. */
    method EvaluateBand(gw: Gateway, snap: Snapshot, clock: real)
      modifies this, gw
      ensures Config() == old(Config())
      ensures State() == BandStep(old(Config()), old(State()), snap, clock).next
      ensures gw.log == old(gw.log) + BandStep(old(Config()), old(State()), snap, clock).commands
    {
      ghost var c0, s0 := Config(), State();
      var v := snap.vacuum;
      if v >= tripHighLimit {
        onArcing := true;
        onMidPoint := true;
        midPoint := snap.hvRead * hvTripGain / 100.0;
        gw.Issue(SetMode(TripMode));
      } else if v >= alarmHighLimit {
        var target := snap.hvRead * hvAlarmGain / 100.0;
        gw.Issue(SetHv(target));
        gw.Issue(Wait(alarmDecreaseTime));
        onAlarm := true;
        assert gw.log == old(gw.log) + [SetHv(target), Wait(alarmDecreaseTime)];
        ghost var band := BandStep(c0, s0, snap, clock).commands;
        assert band[0] == SetHv(target) && band[1] == Wait(alarmDecreaseTime);
      } else if v >= alarmLowLimit {
        if !onArcing && !onAlarm {
          IncreaseHv(gw, snap, clock);
        }
      } else if v >= tripLowLimit {
        ghost var waited := if onAlarm then [Wait(alarmBlockingTime)] else [];
        if onAlarm {
          gw.Issue(Wait(alarmBlockingTime));
          onAlarm := false;
        }
        assert gw.log == old(gw.log) + waited;
        if !onAlarm && !onArcing {
          ghost var s1 := State();
          IncreaseHv(gw, snap, clock);
          assert gw.log == old(gw.log) + (waited + RampSpec(old(Config()), s1, snap, clock).commands);
        }
      } else {
        if onArcing {
          onArcing := false;
          gw.Issue(SetMode(RunningMode));
          ghost var s1 := State();
          IncreaseHv(gw, snap, clock);
          assert gw.log == old(gw.log) + ([SetMode(RunningMode)] + RampSpec(old(Config()), s1, snap, clock).commands);
        } else {
          IncreaseHv(gw, snap, clock);
        }
      }
    }

    /** One iteration of the drive thread's loop. */
    method Tick(gw: Gateway, input: TickInput)
      modifies this, gw
      ensures Config() == old(Config())
      ensures State() == TickSpec(old(Config()), old(State()), input).next
      ensures gw.log == old(gw.log) + TickSpec(old(Config()), old(State()), input).commands
    {
      if use == 0 {
        gw.Issue(Wait(IdleTime));
        return;
      }
      ghost var c0, s0, log0 := Config(), State(), gw.log;
      ghost var pre := InterlockCommands(c0, input.snap, input.stateAfterReset);
      ghost var band := BandStep(c0, s0, input.snap, input.clock);
      ResetInterlock(gw, input.snap, input.stateAfterReset);
      EvaluateBand(gw, input.snap, input.clock);
      gw.Issue(Wait(IdleTime));
      AppendAssoc(log0, pre, band.commands);
      AppendAssoc(log0, pre + band.commands, [Wait(IdleTime)]);
    }

    /** runAutoDriveThreadFunc over a finite run of ticks: the start-up sleep, then one
        tick per input. */
    method Drive(gw: Gateway, inputs: seq<TickInput>)
      modifies this, gw
      ensures Config() == old(Config())
      ensures State() == Run(old(Config()), old(State()), inputs).next
      ensures gw.log == old(gw.log) + [Wait(StartupDelay)] + Run(old(Config()), old(State()), inputs).commands
    {
      ghost var c0, s0 := Config(), State();
      gw.Issue(Wait(StartupDelay));
      ghost var started := gw.log;
      var i := 0;
      while i < |inputs|
        invariant 0 <= i <= |inputs|
        invariant Config() == c0
        invariant State() == Run(c0, s0, inputs[..i]).next
        invariant gw.log == started + Run(c0, s0, inputs[..i]).commands
      {
        ghost var log0, st0 := gw.log, State();
        Tick(gw, inputs[i]);
        RunStep(c0, s0, inputs, i, started, log0, st0, gw.log, State());
        i := i + 1;
      }
      assert inputs[..i] == inputs;
    }
  }
}
