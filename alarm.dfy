/**
 * The alarm actor: each message carries the alarm state, which the actor
 * passes on to its output as an enable or a disable.
 */
module AlarmActor {
  import opened Wrappers
  import opened Devices

  datatype Message = Message(alarm: bool) {
    function IsAlarmRaised(): bool { alarm }
  }

  function NewMessage(alarm: bool): (m: Message)
    ensures m.IsAlarmRaised() == alarm
  {
    Message(alarm)
  }

  /** The single call the output receives for a given alarm state. */
  function CallFor(state: bool): (c: Call)
    ensures c == Call.Enable <==> state
    ensures c == Call.Disable <==> !state
  {
    if state then Call.Enable else Call.Disable
  }

  /**
   * The state of a healthy output after a run of messages: the last
   * message's state, or the initial state when there was none.
   */
  function StateAfter(initial: bool, messages: seq<Message>): bool
  {
    if messages == [] then initial else messages[|messages| - 1].alarm
  }

  class Alarm {
    const alarmHandler: Actuator

    constructor (alarmHandler: Actuator)
      ensures this.alarmHandler == alarmHandler
    {
      this.alarmHandler := alarmHandler;
    }

    /**
     * Drives the output to a state: one enable for true, one disable for
     * false. A failure of the output is logged, not retried, not returned.
     */
    method ProcessAlarmState(state: bool)
      modifies alarmHandler
      ensures alarmHandler.calls == old(alarmHandler.calls) + [CallFor(state)]
      ensures alarmHandler.on == if (state && alarmHandler.enableFails) || (!state && alarmHandler.disableFails)
                                 then old(alarmHandler.on) else state
    {
      if state {
        var err := alarmHandler.Enable();
        if err.Some? {
          // logged
        }
      } else {
        var err := alarmHandler.Disable();
        if err.Some? {
          // logged
        }
      }
    }

    method ProcessMessage(m: Message)
      modifies alarmHandler
      ensures alarmHandler.calls == old(alarmHandler.calls) + [CallFor(m.IsAlarmRaised())]
      ensures !alarmHandler.enableFails && !alarmHandler.disableFails ==> alarmHandler.on == m.alarm
    {
      ProcessAlarmState(m.IsAlarmRaised());
    }

    /** Shutdown disables the output whatever the state before. */
    method Shutdown()
      modifies alarmHandler
      ensures alarmHandler.calls == old(alarmHandler.calls) + [Call.Disable]
      ensures !alarmHandler.disableFails ==> !alarmHandler.on
    {
      ProcessAlarmState(false);
    }

    /** The actor's mailbox drained in order, one message at a time. */
    method ProcessMessages(messages: seq<Message>)
      modifies alarmHandler
      ensures alarmHandler.calls == old(alarmHandler.calls) + seq(|messages|, i requires 0 <= i < |messages| => CallFor(messages[i].alarm))
      ensures !alarmHandler.enableFails && !alarmHandler.disableFails
              ==> alarmHandler.on == StateAfter(old(alarmHandler.on), messages)
    {
      var i := 0;
      while i < |messages|
        invariant 0 <= i <= |messages|
        invariant alarmHandler.calls == old(alarmHandler.calls) + seq(i, j requires 0 <= j < i => CallFor(messages[j].alarm))
        invariant !alarmHandler.enableFails && !alarmHandler.disableFails
                  ==> alarmHandler.on == StateAfter(old(alarmHandler.on), messages[..i])
      {
        ProcessMessage(messages[i]);
        assert messages[..i + 1][i] == messages[i];
        i := i + 1;
      }
      assert messages[..i] == messages;
    }
  }
}
