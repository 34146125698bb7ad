# SCANDINOVA HV auto-drive governor

This is a Dafny model of the vacuum-interlocked high-voltage auto-drive governor of the
SCANDINOVA modulator's EPICS device support. The core is in
`SCANDINOVASup/devSCANDINOVA.c`.

Each vacuum channel (`SCANDINOVA_AUTO_DRIVE_INFO`) has its own drive thread. After a
5 s start-up sleep the thread loops over *ticks*. A disabled channel only sleeps 1 s.
An enabled channel does four things in order:

1. **Interlock reset.** If the parent device's state code is not the running code
   `0xD000`, it waits the trip blocking time, writes control word 1 and waits 5 s. If
   the state then reads `0x6000`, it restores 300 V, waits 5 s and re-enters `0xD000`.
2. **Band classification.** It puts the vacuum reading into one of five bands: trip-high,
   alarm-high, normal, recovering-low or trip-low. The tests run from the most severe
   threshold down and the first one that matches wins.
3. **Band action.** Each band drives the latched flags `onArcing`, `onAlarm` and
   `onMidPoint`, which give the hysteresis. Where the flags allow, the band calls
   `increaseHv`. That function issues at most one ramp step; the step is:
   - rate-limited by the elapsed time;
   - gated on the read-back being no more than 2 V below the setpoint;
   - capped by a ceiling (the mid-point reached after a trip, or the configured maximum);
   - issued by Master channels only.
4. **Idle.** It sleeps 1 s.

The model has four modules:

- **`Actuation`** (`actuation.dfy`) holds the commands and the gateway.
  - `changeMode`, `setHv` and `hwControlSet`, and the ramp's own write of the HV setpoint,
    become `Command` values.
  - Every in-tick sleep becomes a `Wait(seconds)` command, so the order of commands and
    blocking intervals is part of what is proved.
  - The `Gateway` class records the commands in the order they are issued.
- **`AutoDrive`** (`autodrive.dfy`) holds the channel record, the specification functions
  and the `Channel` class.
  - The channel record is split into `ChannelConfig` (configuration) and `ChannelState`
    (the flags and timers that only the drive thread writes).
  - The specification functions are `RampSpec`, `InterlockCommands`, `BandStep`,
    `TickSpec` and `Run`.
  - The `Channel` class has the record's fields. Its methods repeat the C control flow
    field by field, and each one is proved equal to its specification function: the new
    state and the exact commands appended to the log.
  - `init_ai`'s channel defaults are modelled here too.
- **`AutoDriveProperties`** (`autodrive_properties.dfy`) holds the lemmas about the
  specification functions:
  - band by band;
  - the interlock;
  - the ramp guard;
  - multi-tick hysteresis;
  - worked scenarios.
- **`PingResponse`** (`ping_response.dfy`) models the `|` tokeniser that every
  `procPingNMsg` repeats: the `strncpy` copy into the receive buffer, the header check,
  and a loop proved equal to a `Split` function whose inverse `Join` is proved.

A tick reads the parent device through a `Snapshot`, which holds:

- the state code;
- the HV read-back;
- the HV setpoint;
- the value behind the channel's vacuum pointer.

Two more values are inputs of the tick:

- the state code read again after the reset's settle time;
- the clock reading that `increaseHv` takes.

## Model

| member | source | states |
|---|---|---|
| AutoDrive.Classify | SCANDINOVASup/devSCANDINOVA.c:829-876 | the band returned is one whose threshold the reading reaches (or the lowest band), and no more severe band's threshold is reached: first match from the top |
| AutoDriveProperties.ClassifyMonotone | SCANDINOVASup/devSCANDINOVA.c:829-876 | a higher vacuum reading never falls into a less severe band, whatever the thresholds |
| AutoDriveProperties.OrderedBands | SCANDINOVASup/devSCANDINOVA.c:829-876 | with ordered thresholds each band is exactly its half-open interval of readings |
| AutoDriveProperties.AtOrAboveAlarmLow | SCANDINOVASup/devSCANDINOVA.c:829-852 | a reading at or above alarm-low is classified normal, alarm-high or trip-high |
| AutoDriveProperties.AtOrAboveTripLow | SCANDINOVASup/devSCANDINOVA.c:829-864 | a reading at or above trip-low is never classified trip-low |
| AutoDrive.RampSpec | SCANDINOVASup/devSCANDINOVA.c:911-1013 | a Slave returns with no command and no change; a step is issued iff the channel is not a Slave and the interval, feedback and ceiling conditions all hold; the step is min(hvSet + step, max); otherwise the only command is the trip blocking wait in mid-point mode; lastIncrease changes iff a step is issued; mid-point mode survives only a successful step; the arcing, alarm and mid-point values are untouched |
| AutoDrive.Channel.IncreaseHv | SCANDINOVASup/devSCANDINOVA.c:911-1013 | the four-branch C body leaves the configuration unchanged, sets the state to RampSpec's and appends exactly RampSpec's commands |
| AutoDriveProperties.StepRegime | SCANDINOVASup/devSCANDINOVA.c:927-935 | at or below 1000 V a step needs 10 s and adds 10 V, ignoring the ramp speed; above 1000 V it needs the check time and adds the ramp speed, both capped by the maximum |
| AutoDriveProperties.FeedbackGate | SCANDINOVASup/devSCANDINOVA.c:931-933 | while the read-back is more than 2 V below the setpoint no step is issued |
| AutoDriveProperties.CeilingGate | SCANDINOVASup/devSCANDINOVA.c:949-951 | once the read-back is within 2 V of the active ceiling no step is issued |
| AutoDriveProperties.StepRaisesSetpoint | SCANDINOVASup/devSCANDINOVA.c:991-998 | toward the full ceiling a step with a non-negative size never lowers the setpoint, and a positive size raises it (mid-point mode is excluded because there it can lower it, see MidPointStepMayLower) |
| AutoDriveProperties.MidPointStepMayLower | SCANDINOVASup/devSCANDINOVA.c:929-935 | a concrete step toward a 600 V mid-point with a 400 V maximum and 500 V set writes 400 V: the fmin clamp can lower the setpoint |
| AutoDriveProperties.MidPointStepBound | SCANDINOVASup/devSCANDINOVA.c:971-981 | toward a mid-point a step ends below the mid-point plus one step |
| AutoDriveProperties.MidPointOvershoot | SCANDINOVASup/devSCANDINOVA.c:929-935 | a concrete step toward a 500 V mid-point lands at 508 V, above the mid-point: the clamp is to the maximum only |
| AutoDriveProperties.FeedbackOneSided | SCANDINOVASup/devSCANDINOVA.c:949-953 | a read-back 100 V above the setpoint still gets a step: the feedback gate only checks one side |
| AutoDriveProperties.MidPointRelease | SCANDINOVASup/devSCANDINOVA.c:940-945 | a Master whose mid-point step is refused, for any of the three reasons, waits the trip blocking time, leaves mid-point mode and from then on aims at the maximum |
| AutoDrive.TruncToInt | SCANDINOVASup/devSCANDINOVA.c:814 | the `(int)` cast of the state code truncates toward zero: the result is within one of the reading, on the side of zero |
| AutoDrive.InterlockCommands | SCANDINOVASup/devSCANDINOVA.c:813-825 | the reset issues commands iff the truncated state code is not 0xD000, and never a ramp step |
| AutoDriveProperties.InterlockReset | SCANDINOVASup/devSCANDINOVA.c:814-825 | off the running state the reset waits the trip blocking time, writes control word 1 and settles; the restart (300 V, settle, mode 0xD000) follows iff the state re-read is 0x6000 |
| AutoDrive.Channel.ResetInterlock | SCANDINOVASup/devSCANDINOVA.c:813-825 | appends exactly InterlockCommands' commands to the log |
| AutoDriveProperties.InterlockPrecedesBand | SCANDINOVASup/devSCANDINOVA.c:813-880 | in an enabled tick the interlock reset's commands come first and the 1 s idle wait comes last |
| AutoDrive.BandStep | SCANDINOVASup/devSCANDINOVA.c:829-876 | the band action keeps a channel that is arcing on its mid-point, issues no ramp step above the maximum and none for a Slave; afterwards arcing is set iff the band was trip-high, or it was set and the band was not trip-low; the alarm is set iff the band was alarm-high, or it was set and the band was not recovering-low; with either flag latched, no ramp step is issued at or above alarm-low |
| AutoDrive.Channel.EvaluateBand | SCANDINOVASup/devSCANDINOVA.c:829-876 | the band cascade leaves the configuration unchanged, sets the state to BandStep's and appends exactly BandStep's commands |
| AutoDrive.TickSpec | SCANDINOVASup/devSCANDINOVA.c:805-881 | a disabled channel only idles with its state frozen; a tick keeps a channel that is arcing on its mid-point; no ramp step exceeds the maximum; a Slave never ramps; after an enabled tick arcing is set iff the band was trip-high, or it was set and the band was not trip-low |
| AutoDriveProperties.DisabledTick | SCANDINOVASup/devSCANDINOVA.c:807-811 | a disabled channel issues only the 1 s idle wait and its state does not change |
| AutoDriveProperties.TripHighTick | SCANDINOVASup/devSCANDINOVA.c:829-836 | whatever the prior flags, trip-high sets arcing and mid-point mode, sets the mid-point to hvRead·tripGain/100 and issues exactly mode 0xA000 after the reset |
| AutoDriveProperties.AlarmHighTick | SCANDINOVASup/devSCANDINOVA.c:837-846 | alarm-high issues setHv(hvRead·alarmGain/100), waits the decrease time, latches the alarm, leaves arcing and every other field alone and issues no ramp |
| AutoDriveProperties.NormalTick | SCANDINOVASup/devSCANDINOVA.c:847-852 | in the normal band the tick is increaseHv's outcome when neither flag is latched, and leaves the state unchanged with no band command otherwise |
| AutoDriveProperties.RecoveringLowTick | SCANDINOVASup/devSCANDINOVA.c:853-864 | in the recovering-low band a latched alarm is cleared only after the alarm blocking wait, arcing is never cleared, and the ramp runs only when arcing is not latched |
| AutoDriveProperties.TripLowTick | SCANDINOVASup/devSCANDINOVA.c:865-876 | below trip-low arcing is cleared, mode 0xD000 is restored before the ramp exactly when arcing was latched, and the alarm flag is kept |
| AutoDriveProperties.SlaveStillTrips | SCANDINOVASup/devSCANDINOVA.c:829-836 | an enabled Slave channel still enters trip mode on a trip-high reading; only the ramp is reserved to the Master |
| Actuation.Gateway.Issue | SCANDINOVASup/devSCANDINOVA.c:884-910 | each of changeMode, setHv and hwControlSet issues exactly one command, after all earlier ones |
| AutoDrive.Channel.Tick | SCANDINOVASup/devSCANDINOVA.c:805-881 | one loop iteration leaves the configuration unchanged, sets the state to TickSpec's and appends exactly TickSpec's commands |
| AutoDrive.Run | SCANDINOVASup/devSCANDINOVA.c:805-881 | over any run of ticks a channel that is arcing stays on its mid-point and no ramp step exceeds the maximum |
| AutoDrive.Channel.Drive | SCANDINOVASup/devSCANDINOVA.c:797-881 | the thread sleeps 5 s and then runs one tick per input, ending in Run's state with Run's commands appended |
| AutoDriveProperties.AlarmLatchRun | SCANDINOVASup/devSCANDINOVA.c:837-864 | once the alarm is latched it stays latched and no ramp step is issued for as long as every reading stays at or above alarm-low |
| AutoDriveProperties.ArcingLatchRun | SCANDINOVASup/devSCANDINOVA.c:829-876 | once arcing is latched it stays latched and no ramp step is issued for as long as every reading stays at or above trip-low |
| AutoDriveProperties.SlaveRunNoRamp | SCANDINOVASup/devSCANDINOVA.c:918-920 | a Slave channel issues no ramp step over any run |
| AutoDriveProperties.ScenarioTripHigh | SCANDINOVASup/devSCANDINOVA.c:829-836 | on the channel-0 defaults, 5.3 trips: mode 0xA000, arcing latched, mid-point 900 V from 1000 V |
| AutoDriveProperties.ScenarioTripLowAfterTrip | SCANDINOVASup/devSCANDINOVA.c:865-876 | continuing, 3.4 clears arcing, restores 0xD000 and steps 850 V to 860 V toward the 900 V mid-point |
| AutoDriveProperties.ScenarioFastStep | SCANDINOVASup/devSCANDINOVA.c:947-957 | at 950 V read and set, 11 s after the last step, the setpoint goes to 960 V |
| AutoDriveProperties.ScenarioLaggingReadBack | SCANDINOVASup/devSCANDINOVA.c:949-966 | with the read-back 10 V below the setpoint nothing is issued and nothing changes |
| AutoDrive.DefaultConfig | SCANDINOVASup/devSCANDINOVA.c:300-334 | channel 0 is the only enabled channel and the only Master, its defaults order the four thresholds, every channel records its device and index, and the vacuum device is in range (the corrected pointer of "## Findings", not the one as written) |
| AutoDrive.Channel.Init | SCANDINOVASup/devSCANDINOVA.c:300-335 | a new channel has init_ai's defaults, with the vacuum pointer corrected as in "## Findings", all flags clear and its last increase stamped with the clock |
| AutoDrive.VacuumDevice | SCANDINOVASup/devSCANDINOVA.c:328 | the corrected vacuum pointer stays inside the device table, and agrees with the pointer as written exactly when the channel index equals the device index |
| AutoDrive.VacuumDeviceAsWritten | SCANDINOVASup/devSCANDINOVA.c:328 | the pointer as written is inside the device table exactly when the channel index is a valid device index |
| AutoDriveProperties.VacuumPointerOutOfRange | SCANDINOVASup/devSCANDINOVA.c:328 | as written, channel 1 of device 0 points past the one-entry device table |
| PingResponse.Header | SCANDINOVASup/devSCANDINOVA.c:384 | the expected prefix of response N is six characters, none of them NUL |
| PingResponse.HeadersDistinct | SCANDINOVASup/devSCANDINOVA.c:384 | the headers of the four pings differ, so the four handlers accept disjoint responses |
| PingResponse.FirstNul | SCANDINOVASup/devSCANDINOVA.c:369 | the index where strncpy stops copying: no NUL before it, a NUL at it unless it is the end |
| PingResponse.Copied | SCANDINOVASup/devSCANDINOVA.c:369 | the receive buffer has the response's length, agrees with it before the first NUL and holds only NULs from there on |
| PingResponse.CopiedNulFree | SCANDINOVASup/devSCANDINOVA.c:369 | a response without a NUL is copied unchanged |
| PingResponse.HeaderSurvivesCopy | SCANDINOVASup/devSCANDINOVA.c:369-385 | the copy passes the header check exactly when the response itself starts with the header |
| PingResponse.NulEndsTokens | SCANDINOVASup/devSCANDINOVA.c:369-404 | after an embedded NUL no further token is counted: the token count is fixed by the text before the first NUL |
| PingResponse.SplitSnoc | SCANDINOVASup/devSCANDINOVA.c:392-401 | one more character either opens a new token (a separator) or extends the last one |
| PingResponse.Split | SCANDINOVASup/devSCANDINOVA.c:387-404 | cutting at separators always yields at least one token |
| PingResponse.SplitCount | SCANDINOVASup/devSCANDINOVA.c:387-404 | there is one token more than there are separators |
| PingResponse.SplitTokensSeparatorFree | SCANDINOVASup/devSCANDINOVA.c:392-401 | no token holds a separator |
| PingResponse.JoinSplit | SCANDINOVASup/devSCANDINOVA.c:387-404 | the tokens joined with separators give back the text they were cut from |
| PingResponse.SplitJoin | SCANDINOVASup/devSCANDINOVA.c:387-404 | separator-free tokens that are joined and cut again give back the same tokens |
| PingResponse.SplitSeparatorFree | SCANDINOVASup/devSCANDINOVA.c:392-394 | a separator-free text is a single token |
| PingResponse.SplitAppendToken | SCANDINOVASup/devSCANDINOVA.c:396-401 | a separator followed by a separator-free token adds exactly that token |
| PingResponse.SplitBuffer | SCANDINOVASup/devSCANDINOVA.c:387-404 | the loop cuts the buffer from index 1 into Split's tokens: one more than the separators, all separator-free, joining back to the buffer after index 0 |
| PingResponse.SplitResponse | SCANDINOVASup/devSCANDINOVA.c:369-404 | a response without the header of ping N yields nothing; any other is copied with strncpy and the copy is cut from index 1 into Split's tokens (one more than the separators, all separator-free, joining back to the copy after index 0); a response without a NUL is cut as it is |

## Left out

- **EPICS and GPIB plumbing.** The command table, the record conversions and the
  `pact`/`udf` handling are framework field copying.
- **Command transport.** `iocshCmd` and `sprintf` with hard-coded PV names are left out.
  The three wrappers always return 1 and ignore the device index, so each becomes a
  command value.
- **Threads and real time.** Thread creation is left out. Sleeps are recorded as `Wait`
  commands, and the clock is an input of each tick. `increaseHv` reads the clock twice:
  once for the elapsed time and once more to stamp `tLastIncrease`. The model uses one
  reading for both.
- **Concurrency.** The per-channel threads share the global device table without locks.
  The model takes one snapshot per tick, so it does not capture readings that change
  during a tick's own sleeps. The one exception is the state code re-read after the reset,
  which is a separate input.
- **Floating point.** Voltages, thresholds and times are mathematical reals, so the model
  has no rounding and no NaN. The `(int)` cast of the state code is modelled as truncation
  toward zero; values too large for `int` are not modelled.
- **Configuration writes.** The record layer writes thresholds and gains at run time. The
  model takes the configuration as fixed for a run. `Run` does not model a change of
  `use` or of the limits between ticks.
- **Token conversion and buffers.** `atof`/`strtoul` turn tokens into device fields. The
  model leaves this out, along with the fixed C buffers: 20 tokens of 512 characters, a
  300-character receive buffer, and a last token that is not NUL-terminated. The tokeniser
  model has unbounded tokens.
- **procPing1Msg .. procPing3Msg.** These repeat the procPing0Msg tokeniser with a
  different header digit. The model covers them through `PingResponse.SplitResponse`'s
  parameter `n`, rather than repeating each copy.
- **In these places the code does something a reader might not expect; the model follows
  the code** (the vacuum pointer, the one place where it does not, is under "## Findings"):
  - In mid-point mode the new setpoint is clamped only to the maximum, so it may pass the
    mid-point by up to one step (`MidPointOvershoot`, `MidPointStepBound`).
  - The feedback gate is one-sided (`FeedbackOneSided`).
  - Slave channels still run the interlock reset and the band commands (`SlaveStillTrips`).
  - In mid-point mode, a step refused for any of the three reasons, not only the interval,
    makes the channel wait and leave mid-point mode (`MidPointRelease`).

## Findings

| source | as written | input that shows it | evidently intended | confidence | as-written member | corrected member |
|---|---|---|---|---|---|---|
| SCANDINOVASup/devSCANDINOVA.c:328 | `init_ai` sets every channel's vacuum pointer to `&SDN[i].dbSolonoidPs2CurrRead`, indexing the device table by the channel index `i` | device 0, channel 1: `SDN[1]` with `MAX_SCANDINOVA_CNT` = 1, one past the end of the table (channels 1..5 all point outside it) | the gauge of the channel's own device, `SDN[nDevIdx]` | medium; not executed | AutoDrive.VacuumDeviceAsWritten, AutoDriveProperties.VacuumPointerOutOfRange | AutoDrive.VacuumDevice, AutoDrive.DefaultConfig |
