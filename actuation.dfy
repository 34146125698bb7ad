/** The actuation side of the SCANDINOVA modulator as the auto-drive governor sees it:
    the commands it can issue, and a gateway that records them in issue order.
    The wrappers changeMode, setHv and hwControlSet (and the ramp's direct write of
    the HV setpoint) become command values; the in-tick sleeps are recorded as waits
    so that the order of commands and blocking intervals can be stated. */
module Actuation {

  /** Mode codes written with changeMode and state codes read back from the device. */
  const RunningMode: int := 0xD000   // nominal running state; also the mode restored after a trip
  const ReadyState: int := 0x6000    // state in which the interlock reset restarts HV
  const TripMode: int := 0xA000      // protective mode entered on a trip-high reading

  /** Control word written by the hardware interlock reset. */
  const ResetWord: int := 0x0001

  /** Setpoint restored after a successful interlock reset (volts). */
  const RestartVoltage: real := 300.0

  /** Fixed sleeps of the drive thread (seconds). */
  const SettleTime: real := 5.0      // after the reset word and after the restart setpoint
  const IdleTime: real := 1.0        // at the end of every tick, and of every disabled tick
  const StartupDelay: real := 5.0    // once, when the drive thread starts

  datatype Command =
    | SetMode(code: int)         // changeMode
    | SetHv(volts: real)         // setHv
    | ControlWord(word: int)     // hwControlSet
    | RampSetpoint(volts: real)  // increaseHv's own write of the HV setpoint
    | Wait(seconds: real)        // epicsThreadSleep inside the drive thread

  /** No command of `cs` is a ramp step. */
  predicate NoRamp(cs: seq<Command>)
  {
    forall i :: 0 <= i < |cs| ==> !cs[i].RampSetpoint?
  }

  /** Every ramp step of `cs` is at most `bound` volts. */
  predicate RampsAtMost(cs: seq<Command>, bound: real)
  {
    forall i :: 0 <= i < |cs| ==> cs[i].RampSetpoint? ==> cs[i].volts <= bound
  }

  /** Appending logs is associative; stated once so that proofs about long logs need not
      re-derive it element by element. */
  lemma AppendAssoc(a: seq<Command>, b: seq<Command>, d: seq<Command>)
    ensures (a + b) + d == a + (b + d)
  {
  }

  /** The actuation gateway: every command the drive thread issues, in order. */
  class Gateway {
    var log: seq<Command>

    constructor ()
      ensures log == []
    {
      log := [];
    }

    method Issue(c: Command)
      modifies this
      ensures log == old(log) + [c]
    {
      log := log + [c];
    }
  }
}
