/**
 * The control actor: polls the engage switch and enables or disables the
 * pilot on every change, remembering the switch position only once the
 * pilot has accepted it.
 */
module ControlActor {
  import opened Wrappers
  import opened Devices

  class Control {
    /** The pilot, seen as something that can be enabled and disabled. */
    const pilot: Actuator
    /** The last switch position the pilot accepted. */
    var stateEnable: bool

    constructor New(pilot: Actuator)
      ensures this.pilot == pilot && !stateEnable
    {
      this.pilot := pilot;
      stateEnable := false;
    }

    /**
     * One poll. `reading` is what the switch returned. A read error is
     * returned as is, with no pilot call; an unchanged position makes no
     * call; a change makes exactly one call, and the cached position
     * follows only if that call succeeded (so a failed call is retried at
     * the next poll).
     */
    method UpdateControlState(reading: Result<bool, Error>) returns (err: Option<Error>)
      modifies this`stateEnable, pilot
      ensures reading.Err? ==> err == Some(reading.error) && pilot.calls == old(pilot.calls)
                               && stateEnable == old(stateEnable)
      ensures reading.Ok? && reading.value == old(stateEnable)
              ==> err == None && pilot.calls == old(pilot.calls) && stateEnable == old(stateEnable)
      ensures reading.Ok? && reading.value != old(stateEnable)
              ==> pilot.calls == old(pilot.calls) + [if reading.value then Call.Enable else Call.Disable]
                  && err == (if (reading.value && pilot.enableFails) || (!reading.value && pilot.disableFails)
                             then Some(CallFailure(pilot.calls[|pilot.calls| - 1])) else None)
                  && stateEnable == (if err == None then reading.value else old(stateEnable))
      ensures pilot.calls == old(pilot.calls) ==> pilot.on == old(pilot.on)
    {
      if reading.Err? {
        // logged
        return Some(reading.error);
      }
      var state := reading.value;
      err := None;
      if state != stateEnable {
        if state {
          err := pilot.Enable();
        } else {
          err := pilot.Disable();
        }
        if err == None {
          stateEnable := state;
        }
      }
    }

    /** Shutdown only acknowledges: it makes no pilot call. */
    method Shutdown()
      ensures unchanged(pilot) && unchanged(this)
    {
    }
  }
}
