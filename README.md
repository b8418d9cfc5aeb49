# edisonIsThePilot — a Dafny model of the autopilot core

This project models the core of a marine autopilot that runs on an Intel
Edison board. It covers these parts:

- **Pilot rules and state.** Normalising the heading error, checking it
  against the bound, the sticky alarm latch, the fix-status verdict, and
  engaging or disengaging the pilot.
- **PID controller.** A filtered derivative and anti-windup saturation.
- **Configuration.** The post-load step that derives the PID output limits.
- **Actors.** Steering (correction → motor move), alarm, control switch,
  LED dashboard, the position tracer (a ring buffer) and the bump-test
  stepper.
- **I2C drivers.** The MCP4725 DAC encoding and the HMC5883L magnetometer's
  register updates and int16 decoding.
- **Web UI point store.** It coalesces map queries and concatenates the
  parts it receives.

How the code is laid out:

- One module per source component.
- Pure rules are functions with lemmas.
- Objects the source updates in place are classes. Their methods are
  specified either by snapshot functions (`ensures Snapshot() ==
  OnGPS(old(Snapshot()), m, now)`) or by their full new state.
- The tracer keeps its fixed-size slot array as an `array`, with a ghost
  history of insertions.
- Hardware collaborators are stand-ins that record every call in order:
  the enable/disable/move outputs are `Devices.Actuator`, and the I2C
  register file is `Hmc5883l.Bus`. Whether a call fails is fixed when the
  object is created, so the error paths can be stated.

Behaviour worth noting, as the code has it:

- The alarm and steering actors log a failing output and carry on. They do
  not treat it as a fatal fault.
- Steering has no "stay engaged" flag. Every nonzero correction is followed
  by a deferred disable.
- The control actor returns a switch read error to its caller. It updates
  its cached position only when the pilot call succeeds.
- `pilot/actions.go` uses the fields `enabled` and `headingSet`, which the
  struct at `pilot/pilot.go:12-16` does not declare. The model's `Pilot`
  carries all five fields.
- The latch rule exists twice: `updateAlarmState` and
  `computeAlarmStateForInputStatus`. So does `validateInput`, in
  `pilot/pilot.go` and `pilot/validateInput.go`. Each is modelled once.

## Model

| member | source | states |
|---|---|---|
| PilotRules.ComputeHeadingError | pilot/pilot.go:25-37 | the result differs from gps − heading by 0 or ±360; a difference in (−180,180] is kept; for two headings in [0,360) the result lies in (−180,180] |
| PilotRules.HeadingErrorIsUnique | pilot/pilot.go:27-34 | the result is the only value in (−180,180] that differs from the raw difference by a whole turn |
| PilotRules.HalfTurnIsPositive | pilot/pilot.go:32-34 | a raw difference of exactly −180 is reported as +180 |
| PilotRules.HeadingErrorExamples | pilot/pilot_test.go:45-61 | the nine worked cases, e.g. (1,339)→−22, (349,10)→21, (181,1)→180, (130,350)→−140 |
| PilotRules.ValidateInput | pilot/pilot.go:51-57 | INVALID iff the error is below −bound or above bound; VALID iff it lies in [−bound, bound] |
| PilotRules.ValidateInputIsSymmetric | pilot/validateInput.go:17-23 | the verdict is the same for e and −e |
| PilotRules.ValidateInputExamples | pilot/validateInput_test.go:15-49 | bounds are inclusive: 3 and 2 pass a bound of 3, 4 fails |
| PilotRules.UpdateAlarmState | pilot/pilot.go:66-76 | RAISED is absorbing; from UNRAISED the result is RAISED iff the input is INVALID |
| PilotRules.AlarmIsPreviousOrInvalid | pilot/validateInput.go:25-35 | the latch equals previous ∨ input = INVALID |
| PilotRules.AlarmUpdateIsIdempotent | pilot/validateInput.go:25-35 | applying the latch twice with one input equals applying it once |
| PilotRules.LatchAllIsSticky | pilot/pilot.go:66-76 | over any run of inputs the alarm is raised iff it was raised before or some input was INVALID |
| PilotRules.ValidateFixStatus | pilot/validateFix.go:18-33 | the alarm always equals the LED flag, and both are set iff the fix is NOFIX |
| PilotRules.FixStatusExamples | pilot/validateFix.go:18-33 | NOFIX gives (RAISED, on); FIX, DGPS_FIX and any other byte give (UNRAISED, off) |
| Autopilot.Engaged | pilot/actions.go:32-35 | enabled, heading to be recaptured; alarm, heading and bound kept |
| Autopilot.Disengaged | pilot/actions.go:37-40 | disabled, alarm reset; headingSet, heading and bound kept |
| Autopilot.Pilot.constructor | pilot/pilot.go:12-16 | a new pilot is disabled, has no captured heading and no alarm |
| Autopilot.Pilot.CheckHeadingError | pilot/pilot.go:18-23 | only the alarm changes, and it becomes old alarm ∨ error outside [−bound, bound] |
| Autopilot.Pilot.UpdateInput | pilot/pilot.go:39-42 | only the alarm changes, it is never lowered, and it is raised when the normalised error leaves the bound |
| Autopilot.Pilot.Enable | pilot/actions.go:32-35 | the new state is Engaged of the old one |
| Autopilot.Pilot.Disable | pilot/actions.go:37-40 | the new state is Disengaged of the old one |
| Autopilot.TransitionsAreIdempotent | pilot/actions.go:32-40 | engaging twice is engaging once; so is disengaging |
| Autopilot.OutOfBoundsCourseRaisesAlarm | pilot/pilot_test.go:16-26 | heading 112, bound 45, course 180: the alarm is RAISED |
| Autopilot.DisableThenEnable | pilot/actions_test.go:56-66 | after disable then enable: enabled, heading to recapture, alarm down, heading kept |
| Pid.Saturate | infrastructure/pid/pid.go:85-93 | with min ≤ max the result is in [min, max]; a value inside is kept; the result is raw, min or max and moves raw toward the range only |
| Pid.SaturationCorrection | infrastructure/pid/pid.go:86-92 | what the clamp removes is exactly raw − max above, min − raw below, and 0 inside |
| Pid.PID.New | infrastructure/pid/pid.go:48-50 | gains and limits as given; set point, integrator and filter at 0 |
| Pid.PID.Set | infrastructure/pid/pid.go:53-55 | only the set point changes |
| Pid.PID.UpdateWithDuration | infrastructure/pid/pid.go:71-95 | output = clamp of kp·u + integ + (kd·u − filter)·n, within the limits; integrator and filter advance only when dt > 0; the integrator gives back exactly what the clamp cut off; gains, limits and set point untouched |
| Pid.PID.OutputLimits | infrastructure/pid/pid.go:98-100 | returns (min, max) and changes nothing |
| Pid.OutputsStayWithinLimits | infrastructure/pid/pid_test.go:288-325 | a hundred one-second updates with input 0, for any gains and any set point (the tests use ten times either limit), give a hundred outputs, each within [min, max] |
| Conf.PostLoadConfiguration | conf/conf.go:76-83 | Max = Bounds × ratio, Min = −Max, every other field unchanged |
| Conf.DerivedLimitsAreOrdered | conf/conf.go:79-80 | with a non-negative bound and ratio, Min ≤ 0 ≤ Max |
| Conf.PostLoadIsIdempotent | conf/conf.go:76-83 | running the step twice is running it once |
| Conf.DefaultLimits | conf/conf.go:86-87 | with the defaults 25 and 380/25 (integer 15) the limits are −375 and 375 |
| Conf.DerivedLimitsBoundController | conf/conf.go:79-80 | a PID clamp built from the derived limits never leaves them |
| Devices.Actuator.constructor | steering/steering.go:47-51 | an output starts with no calls and de-energised |
| Devices.Actuator.Enable | alarm/alarm.go:40-43 | the call is recorded; it fails as configured; the output is on after a success |
| Devices.Actuator.Disable | alarm/alarm.go:40-43 | the call is recorded; it fails as configured; the output is off after a success |
| Devices.Actuator.Move | steering/steering.go:47-51 | the move is recorded with its direction, speed and duration; it fails as configured |
| Steering.RotationInDegreeToMove | steering/steering.go:69-76 | clockwise iff the rotation is positive; speed 200 steps/s; duration = ⌊\|r\|/360 s⌋ in nanoseconds |
| Steering.DurationIsSymmetric | steering/steering.go:72-73 | r and −r take the same time |
| Steering.DurationIsMonotonic | steering/steering.go:72-73 | a larger rotation never takes less time |
| Steering.MoveExamples | steering/steering_test.go:33-60 | 12 is clockwise, −12 is not, the speed is constant, 0 gives (false, 200, 0), 360 gives one second |
| Steering.MotorCalls | steering/steering.go:82-93 | no calls iff the rotation is 0; otherwise exactly enable, move, disable |
| Steering.Motor.constructor | steering/steering.go:53-55 | the motor drives the given output |
| Steering.Motor.ProcessMotorState | steering/steering.go:78-94 | the output's call trace grows by exactly MotorCalls(r), whether the move fails or not; a successful disable leaves it off, a failing one leaves it on exactly when it was on or the enable succeeded |
| Steering.Motor.Shutdown | steering/steering.go:103-107 | exactly one disable |
| AlarmActor.NewMessage | alarm/alarm.go:53-59 | IsAlarmRaised of a new message is its flag |
| AlarmActor.CallFor | alarm/alarm.go:70-80 | enable iff the state is true, disable iff false |
| AlarmActor.Alarm.constructor | alarm/alarm.go:45-47 | the actor drives the given output |
| AlarmActor.Alarm.ProcessAlarmState | alarm/alarm.go:65-82 | exactly one call, enable for true and disable for false; a failure leaves the output as it was and is not returned |
| AlarmActor.Alarm.ProcessMessage | alarm/alarm.go:84-90 | one call for the message's state; a healthy output ends in that state |
| AlarmActor.Alarm.Shutdown | alarm/alarm.go:93-99 | exactly one disable, whatever the previous state |
| AlarmActor.Alarm.ProcessMessages | alarm/alarm.go:102-120 | the mailbox in order: one call per message, and a healthy output ends in the last message's state |
| ControlActor.Control.New | control/control.go:53-55 | the cached switch position starts false |
| ControlActor.Control.UpdateControlState | control/control.go:57-83 | a read error is returned with no call and no cache change; an unchanged position makes no call; a change makes exactly one enable or disable, and the cache follows only if that call succeeded |
| ControlActor.Control.Shutdown | control/control.go:86-94 | makes no pilot call and changes nothing |
| Dashboard.Merge | dashboard/dashboard.go:46-48 | keys are old ∪ update; update keys take the update's value, the others keep theirs |
| Dashboard.MergeIsIdempotent | dashboard/dashboard.go:46-48 | merging an update twice is merging it once |
| Dashboard.EmptyUpdateIsIdentity | dashboard/dashboard.go:46-48 | an empty update changes nothing |
| Dashboard.MergeExamples | dashboard/dashboard_test.go:64-90 | {AAA} then {BBB} keeps AAA on; {BBB:false, AAA:false} clears both |
| Dashboard.Dashboard.constructor | dashboard/dashboard.go:40 | the LED map starts empty |
| Dashboard.Dashboard.Update | dashboard/dashboard.go:42-48 | the key-by-key loop leaves the map equal to Merge(old, update) |
| Tracer.Tracer.New | tracer/tracer.go:47-53 | n fresh slots, cursor 0, not full, nothing recorded |
| Tracer.Tracer.ProcessPoint | tracer/tracer.go:77-88 | with slots: writes only the slot under the cursor, advances it modulo n, records the point, and the full flag never reverts; with none, nothing changes |
| Tracer.Tracer.GetPoints | tracer/tracer.go:110-124 | at most n points, state unchanged; before the first wrap exactly the points in insertion order; after it, slot i's point is one of the last n inserted |
| Tracer.WrapsAround | tracer/tracer_test.go:124-140 | on two slots: one point reads back alone; after three points the output is the third then the second, in slot order |
| Tracer.SlotHoldsLatestCongruentPoint | tracer/tracer.go:115-118 | once full, slot i holds the latest point whose insertion index ≡ i (mod n) |
| Stepper.StateName | stepper/stepper.go:86-101 | UNKNOWN is shown exactly for the initial state |
| Stepper.StateNameIsInjective | stepper/stepper.go:86-101 | distinct states have distinct names |
| Stepper.OnStep | stepper/stepper.go:166-177 | a step message arms the plan with step and duration from UNDEFINED only; otherwise nothing changes |
| Stepper.OnEnable | stepper/stepper.go:231-240 | ARMED becomes GO; every other state is kept |
| Stepper.OnDisable | stepper/stepper.go:242-249 | any state becomes ABORTED, nothing else changes |
| Stepper.OnShutdown | stepper/stepper.go:258-267 | ABORTED unless DONE |
| Stepper.OnGPS | stepper/stepper.go:179-229 | GO→RUNNING with one point carrying the step, heading and start recorded, one steering message; RUNNING appends one point with no steering change and becomes DONE only after start + duration; other states unchanged |
| Stepper.AbortedIsAbsorbing | stepper/stepper.go:242-249 | no run of inputs changes an aborted plan |
| Stepper.StepsForwardOrAborts | stepper/stepper.go:166-267 | every input keeps the stage, moves it one forward, or aborts |
| Stepper.StageNeverGoesBack | stepper/stepper.go:166-267 | over any run of inputs the stage never decreases |
| Stepper.PointsGrowWhileRunning | stepper/stepper.go:207-216 | while running, recorded points are only ever extended |
| Stepper.Stepper.New | stepper/stepper.go:123-125 | starts UNDEFINED with no points and no steering sent |
| Stepper.Stepper.ProcessNewStepMessage | stepper/stepper.go:166-177 | the new plan is OnStep of the old |
| Stepper.Stepper.ProcessGPSMessage | stepper/stepper.go:179-229 | the new plan is OnGPS of the old at time now |
| Stepper.Stepper.Enable | stepper/stepper.go:231-240 | the new plan is OnEnable of the old |
| Stepper.Stepper.Disable | stepper/stepper.go:242-249 | the new plan is OnDisable of the old |
| Stepper.Stepper.Shutdown | stepper/stepper.go:258-267 | the new plan is OnShutdown of the old |
| Mcp4725.ToBytes | drivers/mcp4725/mcp4725.go:82-87 | two bytes, b0 = (v>>4)&0xff, b1 = (v&0xf)<<4, low nibble of b1 zero |
| Mcp4725.OnlyLowTwelveBitsMatter | drivers/mcp4725/mcp4725.go:84 | only the low 12 bits of the value reach the converter |
| Mcp4725.RoundTrip | drivers/mcp4725/mcp4725.go:84 | (b0·256 + b1) >> 4 gives back v & 0xfff |
| Mcp4725.ToBytesExamples | drivers/mcp4725/mcp4725_suite_test.go:17-40 | 0xfff→ff f0, 0x4fff→ff f0, 0→00 00, 0x1000→00 00, 0x800→80 00 |
| Mcp4725.SetValue | drivers/mcp4725/mcp4725.go:72-80 | writes with command WRITEDAC (0x40) two bytes that decode to the 12-bit value |
| Hmc5883l.MeasurementModeByte | compass/hmc/hmc5883l.go:116-117 | bits 2-7 keep the old value or-ed with the mode's; for mode < 4 the low bits are the mode and bits 2-7 are preserved |
| Hmc5883l.DataRateByte | compass/hmc/hmc5883l.go:196-197 | for a rate < 8, bits 2-4 are the rate and bits 0, 1, 5-7 are preserved |
| Hmc5883l.SamplesByte | compass/hmc/hmc5883l.go:208-209 | for a count < 4, bits 5-6 are the count and bits 0-4, 7 are preserved |
| Hmc5883l.RangeByte | compass/hmc/hmc5883l.go:187 | bits 5-7 are the range's low three bits, bits 0-4 are zero |
| Hmc5883l.DataRateThenSamples | compass/hmc/hmc5883l.go:190-212 | setting the rate then the samples leaves both fields as set and bits 0, 1, 7 untouched |
| Hmc5883l.MgPerDigit | compass/hmc/hmc5883l.go:150-185 | a positive gain exactly for the ranges 0-7 |
| Hmc5883l.GainGrowsWithRange | compass/hmc/hmc5883l.go:150-185 | a wider range has a larger gain |
| Hmc5883l.ReadInt16 | compass/hmc/hmc5883l.go:297-301 | the result is an int16; with fewer than two bytes it is 0 |
| Hmc5883l.DecodeEncode | compass/hmc/hmc5883l.go:297-301 | decoding the little-endian bytes of any int16 gives it back |
| Hmc5883l.EncodeDecode | compass/hmc/hmc5883l.go:297-301 | encoding the decoded value gives back the first two bytes |
| Hmc5883l.AxisReadingAsWritten | compass/hmc/hmc5883l.go:284-301 | the byte read from the M register becomes the low byte of the result |
| Hmc5883l.AxisReading | compass/hmc/hmc5883l.go:284-301 | the byte from the L register is the low byte of the result |
| Hmc5883l.AxisReadingRoundTrip | compass/hmc/hmc5883l.go:284-301 | every int16 the M/L registers can hold is read back unchanged |
| Hmc5883l.AxisReadingByteOrder | compass/hmc/hmc5883l.go:284-301 | registers M = 0x01, L = 0x00 (256) are read as 1 by the driver and as 256 by the corrected decode |
| Hmc5883l.Bus.ReadRegister8 | compass/hmc/hmc5883l.go:258-269 | the register's value, or the bus error |
| Hmc5883l.Bus.WriteRegister8 | compass/hmc/hmc5883l.go:249-257 | the write is recorded and applied unless the bus fails; the register file stays the replay of the recorded writes on the initial one |
| Hmc5883l.ApplyConcat | compass/hmc/hmc5883l.go:249-257 | replaying two write traces in turn is replaying their concatenation |
| Hmc5883l.HMC5883L.New | compass/hmc/hmc5883l.go:214-216 | a driver on the given bus with zero gain and offsets |
| Hmc5883l.HMC5883L.SetMeasurementMode | compass/hmc/hmc5883l.go:111-120 | a failed read returns the error and writes nothing; otherwise one write of MeasurementModeByte(old MODE, mode), which MODE holds afterwards unless the write fails; the bus invariant is kept |
| Hmc5883l.HMC5883L.SetDataRate | compass/hmc/hmc5883l.go:190-200 | a failed read returns the error and writes nothing; otherwise one write of DataRateByte(old CONFIG_A, rate), which CONFIG_A holds afterwards unless the write fails; the bus invariant is kept |
| Hmc5883l.HMC5883L.SetSamples | compass/hmc/hmc5883l.go:202-212 | a failed read returns the error and writes nothing; otherwise one write of SamplesByte(old CONFIG_A, count), which CONFIG_A holds afterwards unless the write fails; the bus invariant is kept |
| Hmc5883l.HMC5883L.SetRange | compass/hmc/hmc5883l.go:148-188 | the gain follows the table for ranges 0-7 and is kept otherwise; CONFIG_B is written with RangeByte(r) in every case and holds it afterwards unless the write fails |
| Hmc5883l.HMC5883L.SetOffset | compass/hmc/hmc5883l.go:143-146 | both offsets are set |
| Hmc5883l.HMC5883L.Begin | compass/hmc/hmc5883l.go:218-247 | true iff the identity reads 0x48 0x34 0x33; otherwise no write; on success exactly the four writes of ConfigurationWrites, and the register file is Configured of the old one (unchanged if writes fail); the driver itself is unchanged |
| Hmc5883l.HMC5883L.Configure | compass/hmc/hmc5883l.go:239-244 | range, mode, rate and samples written in that order, the errors dropped; writes and final registers as in Begin; gain 0.92 |
| Hmc5883l.ConfigurationWrites | compass/hmc/hmc5883l.go:239-242 | four writes to CONFIG_B, MODE, CONFIG_A, CONFIG_A; range 1.3 Ga and continuous mode; with working writes the last CONFIG_A byte has 15 Hz and one sample and keeps bits 0, 1, 7 |
| Hmc5883l.Configured | compass/hmc/hmc5883l.go:239-242 | only CONFIG_B, MODE and CONFIG_A change; they then hold range 1.3 Ga, continuous mode, 15 Hz and one sample |
| PointStore.Dispatch | ui/src/stores/PointStore.js:23-59 | idle bounds change: one fetch, now busy; busy bounds change: no fetch, pending replaced; neither notifies the views; OK answer replaces its part, KO changes none; an answer sends and clears the pending query, else goes idle; pending ⇒ busy is kept |
| PointStore.LatestBoundsWin | ui/src/stores/PointStore.js:27-31 | bounds changes while busy send nothing and only the newest is kept |
| PointStore.StepKeepsOneInFlight | ui/src/stores/PointStore.js:26-53 | one step keeps "exactly one fetch outstanding while busy, none while idle" |
| PointStore.OneInFlightIsKept | ui/src/stores/PointStore.js:26-53 | so does any run of actions |
| PointStore.AtMostOneFetchInFlight | ui/src/stores/PointStore.js:16-59 | from the initial store, at most one fetch is ever outstanding, exactly when busy |
| PointStore.BelowHoldsExactlyTheParts | ui/src/stores/PointStore.js:61-67 | a point is in the concatenation of parts below n iff some part below n holds it |
| PointStore.ConcatenationHoldsExactlyTheParts | ui/src/stores/PointStore.js:61-67 | a point is read iff some stored part holds it |
| PointStore.SinglePart | ui/src/stores/PointStore.js:61-71 | with a single part, reading gives exactly its points |
| PointStore.PointStore.constructor | ui/src/stores/PointStore.js:16-21 | idle, nothing pending, no parts |
| PointStore.PointStore.OnDispatch | ui/src/stores/PointStore.js:23-59 | the new state is Dispatch of the old, and pending ⇒ busy is kept |
| PointStore.PointStore.GetData | ui/src/stores/PointStore.js:61-67 | every part's points in increasing part order, changing nothing |
| PointStore.PointStore.ChangeState | ui/src/stores/PointStore.js:69-71 | the part is replaced by the data; every other part is kept |

## Left out

- Goroutines, channels, `select` loops, the two-phase shutdown handshakes and the panic-to-channel fault path. Each actor's mailbox is modelled as calls made in order, and `AlarmActor.Alarm.ProcessMessages` drains a sequence.
- Wall-clock time. `PID.Update` reads the clock and is not modelled; `updateWithDuration` takes dt as a parameter. The stepper's `now` is a parameter in nanoseconds. The control actor's 100 ms polling timer is not modelled.
- Floating point. The PID, heading errors and configuration use real numbers, so rounding is not modelled.
- Steering.RotationInDegreeToMove: the duration is computed over the reals and truncated with a floor. float64 rounding of the intermediate product is not modelled.
- I2C bus access: `Hmc5883l.Bus` stands for the register file, and the MCP4725 write is a value. Bus numbers, addresses and pin multiplexing are not modelled.
- HMC5883L `ReadNormalize` and `fastRegister8`: the float32 scaling of the axis readings is left out. `fastRegister8` reads like `readRegister8` and is folded into it.
- The stepper's `test_type` and `plot_command` strings, JSON time formatting and the HTTP `CalibrationEndpoint`.
- Configuration loading through viper, the defaults other than the bound and ratio, and the pin and LED tables.
- AlarmActor.Alarm.ProcessMessage: Go's value receiver stores `alarmState` into a copy that is discarded, so the stored state is not modelled. Only the effect on the output is.
- Tracer: `maxPoints` and `nextPosition` are `uint32` in Go and `nat` here. Wrap-around of the counters at 2^32 is not modelled.
- PointStore: `__emitChange` is modelled only as a counter of notifications. The HTTP calls behind `Api.fetchPoints` are modelled as a record of the queries sent.
- Stepper: Go's `state` is an `int`; values outside the six named states cannot arise and are not modelled.
- Dashboard: the logging of every LED after an update.
- Devices.Actuator: whether a call fails is fixed per object. Outputs that fail only some of the time are not modelled.

## Findings

| source | as written | input that shows it | evidently intended | confidence | as-written member | corrected member |
|---|---|---|---|---|---|---|
| compass/hmc/hmc5883l.go:284-301 | `readRegister16` reads two bytes from an axis's M register, which holds the most significant byte, and `read_int16` decodes them least significant byte first | registers M = 0x01, L = 0x00 (the value 256) are read as 1 | the byte from the M register is the high byte | medium, not executed; the register names `_M`/`_L` at compass/hmc/hmc5883l.go:29-34 say which byte is which | Hmc5883l.AxisReadingAsWritten, with Hmc5883l.AxisReadingByteOrder | Hmc5883l.AxisReading, with Hmc5883l.AxisReadingRoundTrip |
