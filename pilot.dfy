/**
 * The pilot's own record and the transitions that update it in place:
 * checking a new GPS course against the captured heading, and engaging or
 * disengaging the pilot.
 */
module Autopilot {
  import opened PilotRules

  /** A value snapshot of the pilot's fields, used to state the transitions. */
  datatype PilotRecord = PilotRecord(alarm: Alarm, heading: real, bound: real,
                                     enabled: bool, headingSet: bool)

  /** Engaging: enabled, and the heading must be captured again. */
  function Engaged(p: PilotRecord): (q: PilotRecord)
    ensures q.enabled && !q.headingSet
    ensures q.alarm == p.alarm && q.heading == p.heading && q.bound == p.bound
  {
    p.(enabled := true, headingSet := false)
  }

  /** Disengaging: disabled, and the alarm latch is reset. */
  function Disengaged(p: PilotRecord): (q: PilotRecord)
    ensures !q.enabled && q.alarm == UNRAISED
    ensures q.headingSet == p.headingSet && q.heading == p.heading && q.bound == p.bound
  {
    p.(enabled := false, alarm := UNRAISED)
  }

  class Pilot {
    var alarm: Alarm
    var heading: real
    var bound: real
    var enabled: bool
    var headingSet: bool

    /** A new pilot: disabled, heading not captured, alarm down. */
    constructor (heading: real, bound: real)
      ensures Snapshot() == PilotRecord(UNRAISED, heading, bound, false, false)
    {
      alarm := UNRAISED;
      this.heading := heading;
      this.bound := bound;
      enabled := false;
      headingSet := false;
    }

    function Snapshot(): PilotRecord
      reads this
    {
      PilotRecord(alarm, heading, bound, enabled, headingSet)
    }

    /** Latches the alarm when the error is out of bounds; changes nothing else. */
    method CheckHeadingError(headingError: real)
      modifies this`alarm
      ensures alarm == UpdateAlarmState(old(alarm), ValidateInput(bound, headingError))
      ensures alarm == (old(alarm) || headingError < -bound || headingError > bound)
    {
      var inputStatus := ValidateInput(bound, headingError);
      alarm := UpdateAlarmState(alarm, inputStatus);
    }

    /**
     * Checks a new GPS course: only the alarm can change, it is never
     * lowered, and it is raised when the normalised error leaves the bound.
     */
    method UpdateInput(gpsHeading: real)
      modifies this`alarm
      ensures old(alarm) == RAISED ==> alarm == RAISED
      ensures alarm == (old(alarm) || ValidateInput(bound, ComputeHeadingError(heading, gpsHeading)) == INVALID)
    {
      var headingError := ComputeHeadingError(heading, gpsHeading);
      CheckHeadingError(headingError);
    }

    method Enable()
      modifies this`enabled, this`headingSet
      ensures Snapshot() == Engaged(old(Snapshot()))
    {
      enabled := true;
      headingSet := false;
    }

    method Disable()
      modifies this`enabled, this`alarm
      ensures Snapshot() == Disengaged(old(Snapshot()))
    {
      enabled := false;
      alarm := UNRAISED;
    }
  }

  /** Engaging twice is engaging once; so is disengaging. */
  lemma TransitionsAreIdempotent(p: PilotRecord)
    ensures Engaged(Engaged(p)) == Engaged(p)
    ensures Disengaged(Disengaged(p)) == Disengaged(p)
  {
  }

  /** After a disengage then an engage the pilot is enabled, must recapture, and the alarm is down. */
  lemma DisableThenEnable(p: PilotRecord)
    ensures var q := Engaged(Disengaged(p));
            q.enabled && !q.headingSet && q.alarm == UNRAISED && q.heading == p.heading
  {
  }

  /** A heading of 112 with a course of 180 and a bound of 45 raises the alarm. */
  method OutOfBoundsCourseRaisesAlarm() returns (alarm: Alarm)
    ensures alarm == RAISED
  {
    var p := new Pilot(112.0, 45.0);
    p.UpdateInput(180.0);
    alarm := p.alarm;
  }
}
