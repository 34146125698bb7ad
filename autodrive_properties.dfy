/** What the governor guarantees, stated over the specification functions of AutoDrive
    (which the Channel methods are proved to follow). */
module AutoDriveProperties {
  import opened Actuation
  import opened AutoDrive

  // ---------------------------------------------------------------------------
  // Band classification

  /** A higher reading never lands in a less severe band, whatever the thresholds. */
  lemma ClassifyMonotone(v1: real, v2: real, c: ChannelConfig)
    requires v1 <= v2
    ensures Severity(Classify(v1, c)) <= Severity(Classify(v2, c))
  {
  }

  /** With ordered thresholds each band is exactly its half-open interval. */
  lemma OrderedBands(v: real, c: ChannelConfig)
    requires Ordered(c)
    ensures Classify(v, c) == TripHigh <==> c.tripHighLimit <= v
    ensures Classify(v, c) == AlarmHigh <==> c.alarmHighLimit <= v < c.tripHighLimit
    ensures Classify(v, c) == Normal <==> c.alarmLowLimit <= v < c.alarmHighLimit
    ensures Classify(v, c) == RecoveringLow <==> c.tripLowLimit <= v < c.alarmLowLimit
    ensures Classify(v, c) == TripLow <==> v < c.tripLowLimit
  {
  }

  /** A reading at or above alarm-low is in one of the three upper bands. */
  lemma AtOrAboveAlarmLow(v: real, c: ChannelConfig)
    requires v >= c.alarmLowLimit
    ensures Severity(Classify(v, c)) >= Severity(Normal)
  {
  }

  /** A reading at or above trip-low is not in the lowest band. */
  lemma AtOrAboveTripLow(v: real, c: ChannelConfig)
    requires v >= c.tripLowLimit
    ensures Classify(v, c) != TripLow
  {
  }

  // ---------------------------------------------------------------------------
  // One tick, band by band (an enabled channel; `pre` is the interlock reset's commands)

  /** Trip-high latches arcing and the mid-point, whatever the flags were, and issues
      exactly the protective mode change. */
  lemma TripHighTick(c: ChannelConfig, s: ChannelState, input: TickInput)
    requires c.use != 0 && Classify(input.snap.vacuum, c) == TripHigh
    ensures var r := TickSpec(c, s, input);
            var pre := InterlockCommands(c, input.snap, input.stateAfterReset);
            && r.next == s.(onArcing := true, onMidPoint := true,
                            midPoint := input.snap.hvRead * c.hvTripGain / 100.0)
            && r.commands == pre + [SetMode(TripMode), Wait(IdleTime)]
  {
  }

  /** Alarm-high lowers the setpoint by the alarm gain, blocks for the decrease time and
      latches the alarm; arcing and the ramp are untouched. */
  lemma AlarmHighTick(c: ChannelConfig, s: ChannelState, input: TickInput)
    requires c.use != 0 && Classify(input.snap.vacuum, c) == AlarmHigh
    ensures var r := TickSpec(c, s, input);
            var pre := InterlockCommands(c, input.snap, input.stateAfterReset);
            && r.next == s.(onAlarm := true)
            && r.commands == pre + [SetHv(input.snap.hvRead * c.hvAlarmGain / 100.0),
                                    Wait(c.alarmDecreaseTime), Wait(IdleTime)]
            && NoRamp(r.commands)
  {
    var pre := InterlockCommands(c, input.snap, input.stateAfterReset);
    var band := [SetHv(input.snap.hvRead * c.hvAlarmGain / 100.0), Wait(c.alarmDecreaseTime)];
    var b := BandStep(c, s, input.snap, input.clock).commands;
    assert |b| == 2 && b[0] == band[0] && b[1] == band[1];
    assert b == band;
    assert band + [Wait(IdleTime)] == [band[0], band[1], Wait(IdleTime)];
    AppendAssoc(pre, band, [Wait(IdleTime)]);
    NoRampAppend(pre, band + [Wait(IdleTime)]);
  }

  /** In the normal band the ramp runs only when neither flag is latched. */
  lemma NormalTick(c: ChannelConfig, s: ChannelState, input: TickInput)
    requires c.use != 0 && Classify(input.snap.vacuum, c) == Normal
    ensures var r := TickSpec(c, s, input);
            var pre := InterlockCommands(c, input.snap, input.stateAfterReset);
            var ramp := RampSpec(c, s, input.snap, input.clock);
            if !s.onArcing && !s.onAlarm
            then r == Outcome(ramp.next, pre + ramp.commands + [Wait(IdleTime)])
            else r == Outcome(s, pre + [Wait(IdleTime)])
  {
  }

  /** In the recovering-low band a latched alarm is cleared only after the alarm blocking
      wait, arcing is never cleared, and the ramp runs only when arcing is not latched. */
  lemma RecoveringLowTick(c: ChannelConfig, s: ChannelState, input: TickInput)
    requires c.use != 0 && Classify(input.snap.vacuum, c) == RecoveringLow
    ensures var r := TickSpec(c, s, input);
            var pre := InterlockCommands(c, input.snap, input.stateAfterReset);
            var waited := if s.onAlarm then [Wait(c.alarmBlockingTime)] else [];
            var ramp := RampSpec(c, s.(onAlarm := false), input.snap, input.clock);
            && !r.next.onAlarm
            && r.next.onArcing == s.onArcing
            && (s.onArcing ==> r == Outcome(s.(onAlarm := false), pre + waited + [Wait(IdleTime)]))
            && (!s.onArcing ==> r == Outcome(ramp.next, pre + waited + ramp.commands + [Wait(IdleTime)]))
  {
  }

  /** Below trip-low a latched arcing flag is cleared and the running mode restored before
      the ramp is tried; the alarm flag is left as it was. */
  lemma TripLowTick(c: ChannelConfig, s: ChannelState, input: TickInput)
    requires c.use != 0 && Classify(input.snap.vacuum, c) == TripLow
    ensures var r := TickSpec(c, s, input);
            var pre := InterlockCommands(c, input.snap, input.stateAfterReset);
            var ramp := RampSpec(c, s.(onArcing := false), input.snap, input.clock);
            var restore := if s.onArcing then [SetMode(RunningMode)] else [];
            && !r.next.onArcing
            && r.next.onAlarm == s.onAlarm
            && r == Outcome(ramp.next, pre + restore + ramp.commands + [Wait(IdleTime)])
  {
  }

  /** A disabled channel only idles and keeps its state frozen. */
  lemma DisabledTick(c: ChannelConfig, s: ChannelState, input: TickInput)
    requires c.use == 0
    ensures TickSpec(c, s, input) == Outcome(s, [Wait(IdleTime)])
  {
  }

  // ---------------------------------------------------------------------------
  // Interlock reset

  /** The reset runs only off the running state, always writes the reset control word
      after the trip blocking wait, and restarts HV at 300 V and the running mode exactly
      when the state read after the settle time is the ready code. */
  lemma InterlockReset(c: ChannelConfig, snap: Snapshot, stateAfterReset: real)
    ensures var cs := InterlockCommands(c, snap, stateAfterReset);
            TruncToInt(snap.stateRead) != RunningMode ==>
              && cs[..3] == [Wait(c.tripBlockingTime), ControlWord(ResetWord), Wait(SettleTime)]
              && (|cs| > 3 <==> TruncToInt(stateAfterReset) == ReadyState)
              && (|cs| > 3 ==> cs[3..] == [SetHv(RestartVoltage), Wait(SettleTime), SetMode(RunningMode)])
    ensures |InterlockCommands(c, snap, stateAfterReset)| == 0 || |InterlockCommands(c, snap, stateAfterReset)| == 3 ||
            |InterlockCommands(c, snap, stateAfterReset)| == 6
  {
  }

  /** In an enabled tick the interlock reset comes first and the idle wait last. */
  lemma InterlockPrecedesBand(c: ChannelConfig, s: ChannelState, input: TickInput)
    requires c.use != 0
    ensures var r := TickSpec(c, s, input);
            var pre := InterlockCommands(c, input.snap, input.stateAfterReset);
            && |r.commands| > |pre|
            && r.commands[..|pre|] == pre
            && r.commands[|r.commands| - 1] == Wait(IdleTime)
  {
  }

  // ---------------------------------------------------------------------------
  // increaseHv

  /** A step lies in the regime's interval: at least 10 s apart and 10 V when the
      read-back is at most 1000 V, else the configured check time and ramp speed. */
  lemma StepRegime(c: ChannelConfig, s: ChannelState, snap: Snapshot, clock: real)
    requires IsStep(RampSpec(c, s, snap, clock).commands)
    ensures var v := RampSpec(c, s, snap, clock).commands[0].volts;
            if snap.hvRead <= 1000.0
            then clock - s.lastIncrease >= 10.0 && v == Min(snap.hvSet + 10.0, c.hvMaxPoint)
            else clock - s.lastIncrease >= c.hvRampCheckTime && v == Min(snap.hvSet + c.hvRampSpeed, c.hvMaxPoint)
  {
  }

  /** The feedback gate: while the read-back lags the setpoint by more than 2 V no step
      is issued. */
  lemma FeedbackGate(c: ChannelConfig, s: ChannelState, snap: Snapshot, clock: real)
    requires snap.hvRead < snap.hvSet - 2.0
    ensures NoRamp(RampSpec(c, s, snap, clock).commands)
  {
  }

  /** The ceiling gate: no step once the read-back is within 2 V of the active ceiling. */
  lemma CeilingGate(c: ChannelConfig, s: ChannelState, snap: Snapshot, clock: real)
    requires snap.hvRead >= Ceiling(c, s) - 2.0
    ensures NoRamp(RampSpec(c, s, snap, clock).commands)
  {
  }

  /** Toward the full ceiling a step never lowers the setpoint, and raises it whenever
      the step size is positive. */
  lemma StepRaisesSetpoint(c: ChannelConfig, s: ChannelState, snap: Snapshot, clock: real)
    requires !s.onMidPoint && IsStep(RampSpec(c, s, snap, clock).commands)
    ensures RampStepSize(c, snap) >= 0.0 ==> RampSpec(c, s, snap, clock).commands[0].volts >= snap.hvSet
    ensures RampStepSize(c, snap) > 0.0 ==> RampSpec(c, s, snap, clock).commands[0].volts > snap.hvSet
  {
  }

  /** Toward a mid-point above the maximum, a "step" can lower the setpoint: fmin clamps
      it to the maximum, which the mid-point gate does not check. */
  lemma MidPointStepMayLower()
    ensures var c := DefaultConfig(0, 0).(hvMaxPoint := 400.0);
            var s := ChannelState(0.0, false, false, true, 600.0);
            var snap := Snapshot(53248.0, 500.0, 500.0, 4.0);
            var r := RampSpec(c, s, snap, 20.0);
            r.commands == [RampSetpoint(400.0)] && r.commands[0].volts < snap.hvSet
  {
  }

  /** Toward a mid-point the setpoint is clamped only to the maximum, so it can pass the
      mid-point, but by less than one step. */
  lemma MidPointStepBound(c: ChannelConfig, s: ChannelState, snap: Snapshot, clock: real)
    requires s.onMidPoint && IsStep(RampSpec(c, s, snap, clock).commands)
    ensures RampSpec(c, s, snap, clock).commands[0].volts < s.midPoint + RampStepSize(c, snap)
  {
  }

  /** A step toward the mid-point that ends above it. */
  lemma MidPointOvershoot()
    ensures var c := DefaultConfig(0, 0);
            var s := ChannelState(0.0, false, false, true, 500.0);
            var snap := Snapshot(53248.0, 497.0, 498.0, 4.0);
            var r := RampSpec(c, s, snap, 20.0);
            IsStep(r.commands) && r.commands[0].volts == 508.0 && r.commands[0].volts > s.midPoint
  {
  }

  /** The feedback gate is one-sided: a read-back far above the setpoint still steps. */
  lemma FeedbackOneSided()
    ensures var c := DefaultConfig(0, 0);
            var s := ChannelState(0.0, false, false, false, 0.0);
            var snap := Snapshot(53248.0, 900.0, 800.0, 4.0);
            IsStep(RampSpec(c, s, snap, 20.0).commands)
  {
  }

  /** After a failed step toward the mid-point the channel waits the trip blocking time
      and aims at the full ceiling from then on. */
  lemma MidPointRelease(c: ChannelConfig, s: ChannelState, snap: Snapshot, clock: real)
    requires c.priority == Master && s.onMidPoint && !RampAllowed(c, s, snap, clock)
    ensures RampSpec(c, s, snap, clock) ==
            Outcome(s.(onMidPoint := false), [Wait(c.tripBlockingTime)])
    ensures Ceiling(c, RampSpec(c, s, snap, clock).next) == c.hvMaxPoint
  {
  }

  // ---------------------------------------------------------------------------
  // Master and slave

  /** A slave channel still issues the interlock and band commands; only the ramp is
      reserved to the master. */
  lemma SlaveStillTrips(c: ChannelConfig, s: ChannelState, input: TickInput)
    requires c.use != 0 && c.priority == Slave && Classify(input.snap.vacuum, c) == TripHigh
    ensures SetMode(TripMode) in TickSpec(c, s, input).commands
  {
  }

  // ---------------------------------------------------------------------------
  // Runs of ticks: the hysteresis

  lemma NoRampAppend(a: seq<Command>, b: seq<Command>)
    requires NoRamp(a) && NoRamp(b)
    ensures NoRamp(a + b)
  {
  }

  /** One tick at or above alarm-low with the alarm latched keeps it latched and does not ramp. */
  lemma TickKeepsAlarm(c: ChannelConfig, s: ChannelState, input: TickInput)
    requires s.onAlarm && input.snap.vacuum >= c.alarmLowLimit
    ensures TickSpec(c, s, input).next.onAlarm
    ensures NoRamp(TickSpec(c, s, input).commands)
  {
  }

  /** One tick at or above trip-low with arcing latched keeps it latched and does not ramp. */
  lemma TickKeepsArcing(c: ChannelConfig, s: ChannelState, input: TickInput)
    requires s.onArcing && input.snap.vacuum >= c.tripLowLimit
    ensures TickSpec(c, s, input).next.onArcing
    ensures NoRamp(TickSpec(c, s, input).commands)
  {
  }

  /** Once the alarm is latched, no ramp step is issued and the alarm stays latched for as
      long as every reading stays at or above alarm-low: only the recovering-low band
      (after its blocking wait) or a tick below it can release it. */
  lemma {:induction false} AlarmLatchRun(c: ChannelConfig, s: ChannelState, inputs: seq<TickInput>)
    requires s.onAlarm
    requires forall k :: 0 <= k < |inputs| ==> inputs[k].snap.vacuum >= c.alarmLowLimit
    ensures Run(c, s, inputs).next.onAlarm
    ensures NoRamp(Run(c, s, inputs).commands)
    decreases |inputs|
  {
    if inputs != [] {
      var front := inputs[..|inputs| - 1];
      AlarmLatchRun(c, s, front);
      var prev := Run(c, s, front);
      TickKeepsAlarm(c, prev.next, inputs[|inputs| - 1]);
      NoRampAppend(prev.commands, TickSpec(c, prev.next, inputs[|inputs| - 1]).commands);
    }
  }

  /** Once arcing is latched, no ramp step is issued and arcing stays latched for as long
      as every reading stays at or above trip-low. */
  lemma {:induction false} ArcingLatchRun(c: ChannelConfig, s: ChannelState, inputs: seq<TickInput>)
    requires s.onArcing
    requires forall k :: 0 <= k < |inputs| ==> inputs[k].snap.vacuum >= c.tripLowLimit
    ensures Run(c, s, inputs).next.onArcing
    ensures NoRamp(Run(c, s, inputs).commands)
    decreases |inputs|
  {
    if inputs != [] {
      var front := inputs[..|inputs| - 1];
      ArcingLatchRun(c, s, front);
      var prev := Run(c, s, front);
      TickKeepsArcing(c, prev.next, inputs[|inputs| - 1]);
      NoRampAppend(prev.commands, TickSpec(c, prev.next, inputs[|inputs| - 1]).commands);
    }
  }

  /** A slave channel never ramps over any run. */
  lemma {:induction false} SlaveRunNoRamp(c: ChannelConfig, s: ChannelState, inputs: seq<TickInput>)
    requires c.priority == Slave
    ensures NoRamp(Run(c, s, inputs).commands)
    decreases |inputs|
  {
    if inputs != [] {
      var front := inputs[..|inputs| - 1];
      SlaveRunNoRamp(c, s, front);
      var prev := Run(c, s, front);
      NoRampAppend(prev.commands, TickSpec(c, prev.next, inputs[|inputs| - 1]).commands);
    }
  }

  // ---------------------------------------------------------------------------
  // Worked scenarios on the channel-0 defaults with the device running

  /** A reading of 5.3, above trip-high 5.2: the channel trips and latches. */
  lemma ScenarioTripHigh()
    ensures var r := TickSpec(DefaultConfig(0, 0), ChannelState(0.0, false, false, false, 0.0),
                              TickInput(Snapshot(53248.0, 1000.0, 1000.0, 5.3), 53248.0, 100.0));
            && r.next == ChannelState(0.0, true, false, true, 900.0)
            && r.commands == [SetMode(TripMode), Wait(IdleTime)]
  {
  }

  /** After that trip, a reading of 3.4, below trip-low 3.5: arcing clears, the running
      mode is restored and the ramp is tried toward the 900 V mid-point. */
  lemma ScenarioTripLowAfterTrip()
    ensures var r := TickSpec(DefaultConfig(0, 0), ChannelState(0.0, true, false, true, 900.0),
                              TickInput(Snapshot(53248.0, 850.0, 850.0, 3.4), 53248.0, 100.0));
            && r.next == ChannelState(100.0, false, false, true, 900.0)
            && r.commands == [SetMode(RunningMode), RampSetpoint(860.0), Wait(IdleTime)]
  {
  }

  /** 950 V read and set, last step 11 s ago: the fast regime steps to 960 V. */
  lemma ScenarioFastStep()
    ensures var r := RampSpec(DefaultConfig(0, 0), ChannelState(89.0, false, false, false, 0.0),
                              Snapshot(53248.0, 950.0, 950.0, 4.0), 100.0);
            r == Outcome(ChannelState(100.0, false, false, false, 0.0), [RampSetpoint(960.0)])
  {
  }

  /** 950 V set, last step 11 s ago, but the read-back is 940 V, more than 2 V below the
      setpoint: nothing is issued. */
  lemma ScenarioLaggingReadBack()
    ensures var r := RampSpec(DefaultConfig(0, 0), ChannelState(89.0, false, false, false, 0.0),
                              Snapshot(53248.0, 940.0, 950.0, 4.0), 100.0);
            r == Outcome(ChannelState(89.0, false, false, false, 0.0), [])
  {
  }

  // ---------------------------------------------------------------------------
  // init_ai's vacuum pointer

  /** As written, channel 1 of device 0 points into device 1, past the one-entry table. */
  lemma VacuumPointerOutOfRange()
    ensures 1 < MaxVacuumCount && VacuumDeviceAsWritten(0, 1) >= MaxDeviceCount
  {
  }
}
