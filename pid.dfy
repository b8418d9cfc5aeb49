/**
 * The PID controller with a filtered derivative and anti-windup, computed
 * over the reals. The elapsed time since the previous update is a
 * parameter: reading the wall clock is not part of the model.
 */
module Pid {

  /**
   * Clamping the raw output into [minOutput, maxOutput]: above the maximum
   * gives the maximum, otherwise below the minimum gives the minimum.
   */
  function Saturate(raw: real, minOutput: real, maxOutput: real): (r: real)
    ensures minOutput <= maxOutput ==> minOutput <= r <= maxOutput
    ensures minOutput <= raw <= maxOutput ==> r == raw
    ensures r == raw || r == minOutput || r == maxOutput
    ensures r <= raw || r == minOutput
    ensures r >= raw || r == maxOutput
  {
    if raw > maxOutput then maxOutput
    else if raw < minOutput then minOutput
    else raw
  }

  class PID {
    var setPoint: real
    const kp: real
    const ki: real
    const kd: real
    const n: real
    var integratorState: real
    var filterState: real
    const minOutput: real
    const maxOutput: real

    /** Gains and limits as given; set point and both accumulators at zero. */
    constructor New(kp: real, ki: real, kd: real, n: real, minOutput: real, maxOutput: real)
      ensures this.kp == kp && this.ki == ki && this.kd == kd && this.n == n
      ensures this.minOutput == minOutput && this.maxOutput == maxOutput
      ensures setPoint == 0.0 && integratorState == 0.0 && filterState == 0.0
    {
      this.kp, this.ki, this.kd, this.n := kp, ki, kd, n;
      this.minOutput, this.maxOutput := minOutput, maxOutput;
      setPoint, integratorState, filterState := 0.0, 0.0, 0.0;
    }

    /** Changes the set point and nothing else. */
    method Set(sp: real)
      modifies this`setPoint
      ensures setPoint == sp
    {
      setPoint := sp;
    }

    /** The output before saturation, for the current state. */
    function RawOutput(input: real): real
      reads this
    {
      var u := setPoint - input;
      (kp * u + integratorState) + (kd * u - filterState) * n
    }

    /**
     * One controller step. The output is the raw output clamped into the
     * limits; the integrator gains ki*u*dt and the filter dt times the
     * filtered derivative only when dt > 0, and the integrator then gives
     * back exactly what the clamp cut off (anti-windup).
     */
    method UpdateWithDuration(input: real, timeDifference: real) returns (output: real)
      modifies this`integratorState, this`filterState
      ensures output == Saturate(old(RawOutput(input)), minOutput, maxOutput)
      ensures minOutput <= maxOutput ==> minOutput <= output <= maxOutput
      ensures var u := setPoint - input;
              integratorState == old(integratorState)
                                 + (if timeDifference > 0.0 then ki * u * timeDifference else 0.0)
                                 - (old(RawOutput(input)) - output)
      ensures var u := setPoint - input;
              filterState == old(filterState)
                             + (if timeDifference > 0.0 then timeDifference * ((kd * u - old(filterState)) * n) else 0.0)
    {
      var u := setPoint - input;

      var filterCoefficient := (kd * u - filterState) * n;
      output := (kp * u + integratorState) + filterCoefficient;
      assert output == RawOutput(input);

      if timeDifference > 0.0 {
        integratorState := integratorState + ki * u * timeDifference;
        filterState := filterState + timeDifference * filterCoefficient;
      }

      if output > maxOutput {
        integratorState := integratorState - (output - maxOutput);
        output := maxOutput;
      } else if output < minOutput {
        integratorState := integratorState + (minOutput - output);
        output := minOutput;
      }
    }

    /** The clamp limits; nothing changes. */
    method OutputLimits() returns (lo: real, hi: real)
      ensures lo == minOutput && hi == maxOutput
    {
      lo, hi := minOutput, maxOutput;
    }
  }

  /**
   * The anti-windup correction: the integrator is lowered by exactly the
   * excess above the maximum, raised by exactly the shortfall below the
   * minimum, and left alone inside the limits.
   */
  lemma SaturationCorrection(raw: real, minOutput: real, maxOutput: real)
    requires minOutput <= maxOutput
    ensures raw > maxOutput ==> raw - Saturate(raw, minOutput, maxOutput) == raw - maxOutput
    ensures raw < minOutput ==> raw - Saturate(raw, minOutput, maxOutput) == -(minOutput - raw)
    ensures minOutput <= raw <= maxOutput ==> raw - Saturate(raw, minOutput, maxOutput) == 0.0
  {
  }

  /**
   * Driven a hundred times with input 0 and one-second steps towards any
   * set point, however far outside the limits, every output stays within them.
   */
  method OutputsStayWithinLimits(kp: real, ki: real, kd: real, n: real, minOutput: real, maxOutput: real, setPoint: real)
    returns (outputs: seq<real>)
    requires minOutput <= maxOutput
    ensures |outputs| == 100
    ensures forall k :: 0 <= k < |outputs| ==> minOutput <= outputs[k] <= maxOutput
  {
    var p := new PID.New(kp, ki, kd, n, minOutput, maxOutput);
    p.Set(setPoint);
    outputs := [];
    while |outputs| < 100
      invariant |outputs| <= 100
      invariant forall k :: 0 <= k < |outputs| ==> minOutput <= outputs[k] <= maxOutput
    {
      var output := p.UpdateWithDuration(0.0, 1.0);
      outputs := outputs + [output];
    }
  }
}
