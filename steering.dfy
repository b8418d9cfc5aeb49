/**
 * The steering actor: turns a correction in degrees into a motor move
 * (direction, speed, duration) and drives the motor with it.
 */
module Steering {
  import opened Wrappers
  import opened Devices

  /** Steps per motor revolution, and the fixed speed of one revolution per second. */
  const NumberOfSteps: nat := 200
  const RotationSpeedInStepPerSeconds: nat := NumberOfSteps

  /** One second in nanoseconds, the unit of Go's time.Duration. */
  const Second: nat := 1000000000

  function Abs(x: real): real { if x < 0.0 then -x else x }

  datatype MotorMove = MotorMove(clockwise: bool, speed: nat, duration: int)

  /**
   * Direction from the sign of the rotation, a constant speed, and the
   * duration |rotation| / 360 * steps / speed seconds, truncated to whole
   * nanoseconds.
   */
  function RotationInDegreeToMove(rotationInDegree: real): (m: MotorMove)
    ensures m.clockwise <==> rotationInDegree > 0.0
    ensures m.speed == 200
    ensures m.duration >= 0
    // the duration is |rotation|/360 seconds, rounded down to the nanosecond
    ensures m.duration as real <= Abs(rotationInDegree) / 360.0 * Second as real < m.duration as real + 1.0
  {
    var seconds := Abs(rotationInDegree / 360.0 * NumberOfSteps as real / RotationSpeedInStepPerSeconds as real);
    MotorMove(rotationInDegree > 0.0, RotationSpeedInStepPerSeconds, (seconds * Second as real).Floor)
  }

  /** Turning one way or the other by the same amount takes the same time. */
  lemma DurationIsSymmetric(rotationInDegree: real)
    ensures RotationInDegreeToMove(rotationInDegree).duration == RotationInDegreeToMove(-rotationInDegree).duration
  {
  }

  /** A larger rotation never takes less time. */
  lemma {:induction false} DurationIsMonotonic(r1: real, r2: real)
    requires Abs(r1) <= Abs(r2)
    ensures RotationInDegreeToMove(r1).duration <= RotationInDegreeToMove(r2).duration
  {
    var m1, m2 := RotationInDegreeToMove(r1), RotationInDegreeToMove(r2);
    assert Abs(r1) / 360.0 * Second as real <= Abs(r2) / 360.0 * Second as real;
  }

  /** The cases of the source's tests: 12 is clockwise, -12 is not, 0 does not move. */
  lemma MoveExamples()
    ensures RotationInDegreeToMove(12.0).clockwise
    ensures !RotationInDegreeToMove(-12.0).clockwise
    ensures RotationInDegreeToMove(12.0).speed == RotationInDegreeToMove(140.0).speed
    ensures RotationInDegreeToMove(0.0) == MotorMove(false, 200, 0)
    ensures RotationInDegreeToMove(360.0).duration == Second
  {
  }

  /** The calls a correction makes on the motor: none for 0, else enable, move, disable. */
  function MotorCalls(rotationInDegree: real): (cs: seq<Call>)
    ensures rotationInDegree == 0.0 <==> cs == []
    ensures cs != [] ==> |cs| == 3 && cs[0] == Call.Enable && cs[2] == Call.Disable && cs[1].Move?
  {
    if rotationInDegree == 0.0 then []
    else
      var m := RotationInDegreeToMove(rotationInDegree);
      [Call.Enable, Call.Move(m.clockwise, m.speed, m.duration), Call.Disable]
  }

  class Motor {
    const actionner: Actuator

    constructor (actionner: Actuator)
      ensures this.actionner == actionner
    {
      this.actionner := actionner;
    }

    /**
     * Moves the motor for a nonzero correction: enable, move, then the
     * deferred disable, which runs even when the move failed. Errors are
     * only logged, never returned.
     */
    method ProcessMotorState(rotationInDegree: real)
      modifies actionner
      ensures actionner.calls == old(actionner.calls) + MotorCalls(rotationInDegree)
      ensures rotationInDegree == 0.0 ==> actionner.on == old(actionner.on)
      ensures rotationInDegree != 0.0 && !actionner.disableFails ==> !actionner.on
      ensures rotationInDegree != 0.0 && actionner.disableFails ==> actionner.on == (old(actionner.on) || !actionner.enableFails)
    {
      if rotationInDegree != 0.0 {
        var _ := actionner.Enable();
        var m := RotationInDegreeToMove(rotationInDegree);
        var err := actionner.Move(m.clockwise, m.speed, m.duration);
        if err.Some? {
          // the failure is logged and dropped
        }
        var _ := actionner.Disable();
      }
    }

    /** Shutdown issues exactly one disable, whatever the previous state. */
    method Shutdown()
      modifies actionner
      ensures actionner.calls == old(actionner.calls) + [Call.Disable]
      ensures !actionner.disableFails ==> !actionner.on
    {
      var _ := actionner.Disable();
    }
  }
}
