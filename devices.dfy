/**
 * The physical collaborators that the actors drive: an output that can be
 * enabled and disabled (alarm buzzer, LED, steering motor sleep pin, or the
 * pilot seen from the control switch), which may also be asked to move.
 *
 * The real devices are hardware; here one object stands for any of them and
 * records, in order, every call made on it. Whether a call fails is fixed
 * when the object is created, so that the error paths of the callers can be
 * stated.
 */
module Devices {
  import opened Wrappers

  /** A call made on an actuator. `Move` carries the direction, the speed in
      steps per second and the duration in nanoseconds. */
  datatype Call = Enable | Disable | Move(clockwise: bool, speed: nat, duration: int)

  datatype Error = ReadFailure | CallFailure(call: Call)

  class Actuator {
    /** Every call received so far, oldest first. */
    var calls: seq<Call>
    /** Whether the output is currently energised. */
    var on: bool
    const enableFails: bool
    const disableFails: bool
    const moveFails: bool

    constructor (enableFails: bool, disableFails: bool, moveFails: bool)
      ensures calls == [] && !on
      ensures this.enableFails == enableFails && this.disableFails == disableFails
      ensures this.moveFails == moveFails
    {
      calls := [];
      on := false;
      this.enableFails := enableFails;
      this.disableFails := disableFails;
      this.moveFails := moveFails;
    }

    method Enable() returns (err: Option<Error>)
      modifies this
      ensures calls == old(calls) + [Call.Enable]
      ensures err == if enableFails then Some(CallFailure(Call.Enable)) else None
      ensures on == (if enableFails then old(on) else true)
    {
      calls := calls + [Call.Enable];
      if enableFails {
        err := Some(CallFailure(Call.Enable));
      } else {
        on := true;
        err := None;
      }
    }

    method Disable() returns (err: Option<Error>)
      modifies this
      ensures calls == old(calls) + [Call.Disable]
      ensures err == if disableFails then Some(CallFailure(Call.Disable)) else None
      ensures on == (if disableFails then old(on) else false)
    {
      calls := calls + [Call.Disable];
      if disableFails {
        err := Some(CallFailure(Call.Disable));
      } else {
        on := false;
        err := None;
      }
    }

    method Move(clockwise: bool, speed: nat, duration: int) returns (err: Option<Error>)
      modifies this
      ensures calls == old(calls) + [Call.Move(clockwise, speed, duration)]
      ensures err == if moveFails then Some(CallFailure(Call.Move(clockwise, speed, duration))) else None
      ensures on == old(on)
    {
      calls := calls + [Call.Move(clockwise, speed, duration)];
      err := if moveFails then Some(CallFailure(Call.Move(clockwise, speed, duration))) else None;
    }
  }
}
