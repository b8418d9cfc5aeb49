/**
 * The bump-test stepper: a plan that is armed with a step and a duration,
 * started by an enable, and then records GPS points while the step is
 * applied, until the time is up. A disable aborts it from any state.
 */
module Stepper {

  datatype PlanState = Undefined | Armed | Go | Running | Done | Aborted

  /** The JSON field for a state; the initial state has no case and shows as UNKNOWN. */
  function StateName(s: PlanState): (name: string)
    ensures name == "UNKNOWN" <==> s == Undefined
  {
    match s
    case Armed => "ARMED"
    case Go => "GO"
    case Running => "RUNNING"
    case Done => "DONE"
    case Aborted => "ABORTED"
    case Undefined => "UNKNOWN"
  }

  /** Distinct states have distinct names, so the name identifies the state. */
  lemma StateNameIsInjective(s: PlanState, t: PlanState)
    ensures StateName(s) == StateName(t) ==> s == t
  {
  }

  /** A GPS feedback as the stepper receives it. Times are in nanoseconds. */
  datatype GPSFeedBack = GPSFeedBack(heading: real, validity: bool, speed: real,
                                     latitude: real, longitude: real, date: string, time: string)

  datatype PlanPoint = PlanPoint(timestamp: int, fixTime: string, fixDate: string, course: real,
                                 speed: real, deltaSteering: real, latitude: real, longitude: real,
                                 validity: bool)

  /** A value snapshot of the plan, and of the steering messages sent so far. */
  datatype Plan = Plan(state: PlanState, start: int, step: real, duration: int, heading: real,
                       points: seq<PlanPoint>, steeringSent: seq<real>)

  /** A step message arms the plan, only from the initial state. */
  function OnStep(p: Plan, step: real, duration: int): (q: Plan)
    ensures p.state == Undefined ==> q == p.(state := Armed, step := step, duration := duration)
    ensures p.state != Undefined ==> q == p
  {
    if p.state == Undefined then p.(state := Armed, step := step, duration := duration) else p
  }

  /** An enable starts an armed plan and does nothing otherwise. */
  function OnEnable(p: Plan): (q: Plan)
    ensures q == if p.state == Armed then p.(state := Go) else p
  {
    match p.state
    case Armed => p.(state := Go)
    case _ => p
  }

  /** A disable aborts the plan whatever its state. */
  function OnDisable(p: Plan): (q: Plan)
    ensures q.state == Aborted && q.(state := p.state) == p
  {
    p.(state := Aborted)
  }

  /** Shutdown aborts the plan unless it is done. */
  function OnShutdown(p: Plan): (q: Plan)
    ensures q.state == (if p.state == Done then Done else Aborted) && q.(state := p.state) == p
  {
    if p.state != Done then p.(state := Aborted) else p
  }

  /**
   * A GPS feedback at time `now`: in GO the run starts (heading and start
   * recorded, one point with the step, one steering message); while
   * RUNNING one point with no steering change is added, and the run is
   * DONE once now is after start + duration; in any other state nothing
   * changes.
   */
  function OnGPS(p: Plan, m: GPSFeedBack, now: int): (q: Plan)
    ensures p.state == Go ==>
              && q.state == Running && q.start == now && q.heading == m.heading
              && |q.points| == 1 && q.points[0].deltaSteering == p.step && q.points[0].course == m.heading
              && q.steeringSent == p.steeringSent + [p.step]
              && q.step == p.step && q.duration == p.duration
    ensures p.state == Running ==>
              && q.state == (if now > p.start + p.duration then Done else Running)
              && |q.points| == |p.points| + 1 && q.points[..|p.points|] == p.points
              && q.points[|p.points|].deltaSteering == 0.0 && q.points[|p.points|].course == m.heading
              && q.(state := p.state, points := p.points) == p
    ensures p.state !in {Go, Running} ==> q == p
  {
    match p.state
    case Go =>
      p.(heading := m.heading, state := Running,
         points := [PlanPoint(now, m.time, m.date, m.heading, m.speed, p.step, m.latitude, m.longitude, m.validity)],
         start := now, steeringSent := p.steeringSent + [p.step])
    case Running =>
      var q := p.(points := p.points + [PlanPoint(now, "", "", m.heading, m.speed, 0.0, m.latitude, m.longitude, m.validity)]);
      if now > p.start + p.duration then q.(state := Done) else q
    case _ => p
  }

  /** The inputs the stepper's mailbox delivers. */
  datatype Event = StepEvent(step: real, duration: int) | EnableEvent | DisableEvent
                 | GPSEvent(m: GPSFeedBack, now: int) | ShutdownEvent

  function Next(p: Plan, e: Event): Plan
  {
    match e
    case StepEvent(step, duration) => OnStep(p, step, duration)
    case EnableEvent => OnEnable(p)
    case DisableEvent => OnDisable(p)
    case GPSEvent(m, now) => OnGPS(p, m, now)
    case ShutdownEvent => OnShutdown(p)
  }

  function Run(p: Plan, es: seq<Event>): Plan
    decreases |es|
  {
    if es == [] then p else Run(Next(p, es[0]), es[1..])
  }

  /** ABORTED is absorbing: no run of inputs changes an aborted plan. */
  lemma {:induction false} AbortedIsAbsorbing(p: Plan, es: seq<Event>)
    requires p.state == Aborted
    ensures Run(p, es) == p
    decreases |es|
  {
    if es != [] {
      assert Next(p, es[0]) == p;
      AbortedIsAbsorbing(p, es[1..]);
    }
  }

  /** The order of the stages; ABORTED stands apart. */
  function Rank(s: PlanState): nat
  {
    match s
    case Undefined => 0
    case Armed => 1
    case Go => 2
    case Running => 3
    case Done => 4
    case Aborted => 5
  }

  /** Every input either keeps the stage, moves one stage forward, or aborts. */
  lemma StepsForwardOrAborts(p: Plan, e: Event)
    ensures var s := Next(p, e).state;
            s == p.state || Rank(s) == Rank(p.state) + 1 || s == Aborted
  {
  }

  /** The stage never goes back, over any run. */
  lemma {:induction false} StageNeverGoesBack(p: Plan, es: seq<Event>)
    ensures Rank(Run(p, es).state) >= Rank(p.state)
    decreases |es|
  {
    if es != [] {
      StepsForwardOrAborts(p, es[0]);
      StageNeverGoesBack(Next(p, es[0]), es[1..]);
    }
  }

  /** While running, no input removes a recorded point. */
  lemma PointsGrowWhileRunning(p: Plan, e: Event)
    requires p.state == Running
    ensures p.points <= Next(p, e).points
  {
  }

  class Stepper {
    var state: PlanState
    var start: int
    var step: real
    var duration: int
    var heading: real
    var points: seq<PlanPoint>
    /** The steering messages sent so far. */
    var steeringSent: seq<real>

    function Snapshot(): Plan
      reads this
    {
      Plan(state, start, step, duration, heading, points, steeringSent)
    }

    constructor New()
      ensures state == Undefined && points == [] && steeringSent == []
    {
      state := Undefined;
      start, step, duration, heading := 0, 0.0, 0, 0.0;
      points, steeringSent := [], [];
    }

    method ProcessNewStepMessage(step: real, duration: int)
      modifies this
      ensures Snapshot() == OnStep(old(Snapshot()), step, duration)
    {
      if state == Undefined {
        state := Armed;
        this.duration := duration;
        this.step := step;
      }
    }

    /** `now` is the wall-clock time at which the feedback is handled. */
    method ProcessGPSMessage(m: GPSFeedBack, now: int)
      modifies this
      ensures Snapshot() == OnGPS(old(Snapshot()), m, now)
    {
      match state {
        case Go =>
          heading := m.heading;
          state := Running;
          points := [PlanPoint(now, m.time, m.date, m.heading, m.speed, step, m.latitude, m.longitude, m.validity)];
          start := now;
          steeringSent := steeringSent + [step];
        case Running =>
          points := points + [PlanPoint(now, "", "", m.heading, m.speed, 0.0, m.latitude, m.longitude, m.validity)];
          if now > start + duration {
            state := Done;
          }
        case _ =>
      }
    }

    method Enable()
      modifies this
      ensures Snapshot() == OnEnable(old(Snapshot()))
    {
      if state == Armed {
        state := Go;
      }
    }

    method Disable()
      modifies this
      ensures Snapshot() == OnDisable(old(Snapshot()))
    {
      state := Aborted;
    }

    method Shutdown()
      modifies this
      ensures Snapshot() == OnShutdown(old(Snapshot()))
    {
      if state != Done {
        state := Aborted;
      }
    }
  }
}
