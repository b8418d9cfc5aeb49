/**
 * The pure decision rules of the pilot: normalising the heading error,
 * checking it against the bound, the sticky alarm latch, and the alarm and
 * LED derived from a GPS fix status.
 */
module PilotRules {

  /** An alarm is a boolean latch: RAISED is true. */
  type Alarm = bool
  const RAISED: Alarm := true
  const UNRAISED: Alarm := false

  /** The verdict on a heading error: VALID is true. */
  type InputStatus = bool
  const VALID: InputStatus := true
  const INVALID: InputStatus := false

  /** GPS fix qualities as the receiver reports them (a byte). */
  type FixStatus = bv8
  const NOFIX: FixStatus := 0
  const FIX: FixStatus := 1
  const DGPS_FIX: FixStatus := 2

  /**
   * The error between the GPS course and the captured heading, brought
   * back into (-180, 180] by one subtraction of 360 above 180 followed by
   * one addition of 360 at or below -180.
   */
  function ComputeHeadingError(heading: real, gpsHeading: real): (e: real)
    // the result is the raw difference, shifted by at most one turn
    ensures e == gpsHeading - heading || e == gpsHeading - heading - 360.0
         || e == gpsHeading - heading + 360.0
    // a difference already in (-180, 180] is returned unchanged
    ensures -180.0 < gpsHeading - heading <= 180.0 ==> e == gpsHeading - heading
    // for two compass headings the result lies in (-180, 180]
    ensures 0.0 <= heading < 360.0 && 0.0 <= gpsHeading < 360.0 ==> -180.0 < e <= 180.0
  {
    var d := gpsHeading - heading;
    var e1 := if d > 180.0 then d - 360.0 else d;
    if e1 <= -180.0 then e1 + 360.0 else e1
  }

  /** The error is VALID exactly when it lies in [-bound, bound]. */
  function ValidateInput(bound: real, headingError: real): (s: InputStatus)
    ensures s == INVALID <==> headingError < -bound || headingError > bound
    ensures s == VALID <==> -bound <= headingError <= bound
  {
    if -bound > headingError || bound < headingError then INVALID else VALID
  }

  /**
   * The sticky alarm latch: once RAISED it stays RAISED; from UNRAISED it
   * becomes RAISED exactly on an INVALID input. The source states this rule
   * twice, as updateAlarmState and as computeAlarmStateForInputStatus.
   */
  function UpdateAlarmState(previousState: Alarm, input: InputStatus): (a: Alarm)
    ensures previousState == RAISED ==> a == RAISED
    ensures previousState == UNRAISED ==> (a == RAISED <==> input == INVALID)
  {
    if previousState == RAISED then RAISED
    else if input == INVALID then RAISED
    else UNRAISED
  }

  /** The alarm and the NoGPSFix LED that a fix status calls for. */
  datatype FixVerdict = FixVerdict(alarm: Alarm, ledEnabled: bool)

  function ValidateFixStatus(fix: FixStatus): (v: FixVerdict)
    ensures v.alarm == v.ledEnabled
    ensures v.alarm == RAISED <==> fix == NOFIX
  {
    match fix
    case 0 => FixVerdict(RAISED, true)
    case _ => FixVerdict(UNRAISED, false)
  }

  // ---------------------------------------------------------------------
  // Properties of the heading error

  /**
   * Reference definition: the normalised error is the only value in
   * (-180, 180] that differs from the raw difference by a whole turn.
   */
  lemma HeadingErrorIsUnique(heading: real, gpsHeading: real, e': real)
    requires -180.0 < e' <= 180.0
    requires e' == gpsHeading - heading || e' == gpsHeading - heading - 360.0
          || e' == gpsHeading - heading + 360.0
    requires 0.0 <= heading < 360.0 && 0.0 <= gpsHeading < 360.0
    ensures ComputeHeadingError(heading, gpsHeading) == e'
  {
  }

  /** A raw difference of exactly -180 is reported as +180. */
  lemma HalfTurnIsPositive(heading: real, gpsHeading: real)
    requires gpsHeading - heading == -180.0
    ensures ComputeHeadingError(heading, gpsHeading) == 180.0
  {
  }

  /** The worked examples of the heading-error computation. */
  lemma HeadingErrorExamples()
    ensures ComputeHeadingError(0.0, 140.0) == 140.0
    ensures ComputeHeadingError(0.0, 0.0) == 0.0
    ensures ComputeHeadingError(1.0, 2.0) == 1.0
    ensures ComputeHeadingError(1.0, 339.0) == -22.0
    ensures ComputeHeadingError(349.0, 359.0) == 10.0
    ensures ComputeHeadingError(349.0, 10.0) == 21.0
    ensures ComputeHeadingError(1.0, 181.0) == 180.0
    ensures ComputeHeadingError(181.0, 1.0) == 180.0
    ensures ComputeHeadingError(130.0, 350.0) == -140.0
  {
  }

  // ---------------------------------------------------------------------
  // Properties of the bound check and of the latch

  /** The bound check is symmetric in the sign of the error. */
  lemma ValidateInputIsSymmetric(bound: real, headingError: real)
    ensures ValidateInput(bound, headingError) == ValidateInput(bound, -headingError)
  {
  }

  /** The bounds are inclusive: 3 and 2 pass a bound of 3, 4 does not. */
  lemma ValidateInputExamples()
    ensures ValidateInput(3.0, 3.0) == VALID
    ensures ValidateInput(3.0, -3.0) == VALID
    ensures ValidateInput(3.0, 2.0) == VALID
    ensures ValidateInput(3.0, 4.0) == INVALID
  {
  }

  /** The latch is "previous or invalid". */
  lemma AlarmIsPreviousOrInvalid(previousState: Alarm, input: InputStatus)
    ensures UpdateAlarmState(previousState, input) == (previousState || input == INVALID)
  {
  }

  /** Feeding the same input twice latches the same as feeding it once. */
  lemma AlarmUpdateIsIdempotent(previousState: Alarm, input: InputStatus)
    ensures UpdateAlarmState(UpdateAlarmState(previousState, input), input)
         == UpdateAlarmState(previousState, input)
  {
  }

  /** The latch over a run of inputs: RAISED iff raised before or any input was INVALID. */
  function LatchAll(previousState: Alarm, inputs: seq<InputStatus>): (a: Alarm)
    decreases |inputs|
  {
    if inputs == [] then previousState
    else LatchAll(UpdateAlarmState(previousState, inputs[0]), inputs[1..])
  }

  lemma {:induction false} LatchAllIsSticky(previousState: Alarm, inputs: seq<InputStatus>)
    ensures LatchAll(previousState, inputs) == (previousState || INVALID in inputs)
    decreases |inputs|
  {
    if inputs != [] {
      LatchAllIsSticky(UpdateAlarmState(previousState, inputs[0]), inputs[1..]);
      assert inputs == [inputs[0]] + inputs[1..];
    }
  }

  /** The fix statuses the receiver reports, and any other byte. */
  lemma FixStatusExamples(other: FixStatus)
    requires other != NOFIX && other != FIX && other != DGPS_FIX
    ensures ValidateFixStatus(NOFIX) == FixVerdict(RAISED, true)
    ensures ValidateFixStatus(FIX) == FixVerdict(UNRAISED, false)
    ensures ValidateFixStatus(DGPS_FIX) == FixVerdict(UNRAISED, false)
    ensures ValidateFixStatus(other) == FixVerdict(UNRAISED, false)
  {
  }
}
