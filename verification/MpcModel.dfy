/** The output worker of a Cartesian MPC session, one period at a time: what it reads, the gates
    it applies, when it adopts a new plan, and the command it sends. Times are nanoseconds of the
    host's monotonic clock. */
module MpcModel {
  import opened MpcCubic
  import opened MpcSampling
  import opened MpcWait
  import opened Wrappers

  const JOINTS: nat := 6
  const KNOTS: nat := 6
  const DT: real := 0.020
  const PLANNING_PERIOD: int := 20000000
  const OUTPUT_PERIOD: int := 2000000

  const REST := Point(0.0, 0.0)
  const STILL := [REST, REST, REST, REST, REST, REST]
  const NO_CUBIC := Cubic(0.0, 0.0, 0.0, 0.0)

  /** One entry a joint. */
  type Joints = s: seq<Point> | |s| == JOINTS witness STILL
  type Reals = s: seq<real> | |s| == JOINTS witness [0.0, 0.0, 0.0, 0.0, 0.0, 0.0]
  type Cubics = s: seq<Cubic> | |s| == JOINTS
    witness [NO_CUBIC, NO_CUBIC, NO_CUBIC, NO_CUBIC, NO_CUBIC, NO_CUBIC]
  /** A plan's knots, joint by joint. */
  type Knots = s: seq<seq<Point>> | |s| == JOINTS && forall j :: 0 <= j < JOINTS ==> |s[j]| == KNOTS
    witness [STILL, STILL, STILL, STILL, STILL, STILL]

  function Seconds(duration: int): real { duration as real / 1000000000.0 }

  // Configuration

  datatype Timeouts = Timeouts(state: int, target: int, plan: int, lateness: int)
  datatype Config = Config(current: real, excitation: real, speed: real, acceleration: real, tracking: real,
                           timeouts: Timeouts)

  predicate ValidConfig(c: Config) {
    && 0.0 < c.current <= 1.0 && c.excitation >= 1.0
    && c.speed > 0.0 && c.acceleration > 0.0 && c.tracking > 0.0
    && c.timeouts.state > OUTPUT_PERIOD && c.timeouts.target > PLANNING_PERIOD
    && PLANNING_PERIOD < c.timeouts.plan <= 80000000
    && OUTPUT_PERIOD <= c.timeouts.lateness < c.timeouts.plan
  }

  const LOWEST: seq<real> := [-3.14, 0.0, 0.0, -1.3, -1.57, -1.57]
  const HIGHEST: seq<real> := [3.14, 3.14, 3.14, 1.3, 1.57, 1.57]
  const FASTEST: seq<real> := [12.48, 3.744, 3.744, 12.48, 12.48, 12.48]

  function JointLimits(c: Config, j: nat): (l: Limits)
    requires j < JOINTS
    ensures ValidConfig(c) ==> 0.0 < l.velocity <= c.speed
  {
    Limits(LOWEST[j], HIGHEST[j], Min(c.speed, FASTEST[j]), c.acceleration)
  }

  // Measurements

  datatype Reason = StaleState | StaleTarget | StalePlan | OutputDeadline | InvalidState
                  | InvalidTrajectory | TrackingError | Transport | InternalError

  /** `received` is zero before the first feedback; `finite` says no value is NaN or infinite. */
  datatype Measurement = Measurement(connected: bool, received: int, errors: int, finite: bool, joints: Joints)

  predicate JointOk(l: Limits, p: Point) { l.lower <= p.q <= l.upper && Abs(p.dq) <= l.velocity }

  predicate JointsOk(c: Config, m: Measurement) {
    m.finite && forall j: nat :: j < JOINTS ==> JointOk(JointLimits(c, j), m.joints[j])
  }

  function Judge(c: Config, m: Measurement, now: int): Option<Reason> {
    if !m.connected then Some(Transport)
    else if m.received == 0 || m.received > now || now - m.received > c.timeouts.state then Some(StaleState)
    else if m.errors != 0 || !JointsOk(c, m) then Some(InvalidState)
    else None
  }

  // The worker's variables

  /** Generation 0 is no plan. */
  datatype Plan = Plan(generation: nat, origin: int, knots: Knots)
  datatype Handoff = NoHandoff | Handoff(start: int, cubics: Cubics)
  datatype Counters = Counters(outputs: nat, switches: nat, missed: nat)
  datatype State = State(next: int, active: Plan, latest: Plan, handoff: Handoff, previous: Option<Joints>,
                         count: Counters)

  const NO_PLAN := Plan(0, 0, [STILL, STILL, STILL, STILL, STILL, STILL])

  function Initial(now: int): State { State(now, NO_PLAN, NO_PLAN, NoHandoff, None, Counters(0, 0, 0)) }

  function RefAt(s: State, j: nat, t: int): Point
    requires j < JOINTS
  {
    if s.handoff.Handoff? && Seconds(t - s.handoff.start) <= DT then
      Sample(s.handoff.cubics[j], DT, Seconds(t - s.handoff.start))
    else
      SampleKnots(s.active.knots[j], DT, Seconds(t - s.active.origin))
  }

  /** What one period reads, in the order it reads it. `first` is when the session got its first
      target; `stopped` is whether a stop was requested before the command went out; `wait` is the wait
      for the next slot. */
  datatype Read = Failed | NoData | Fresh(plan: Plan)
  datatype Clock = Clock(now: int, checked: int, submit: int, done: int)
  datatype Cycle = Cycle(at: Clock, read: Read, target: int, first: int, measured: Measurement,
                         stopped: bool, published: bool, wait: Wait)

  datatype Command = Command(q: Reals, ceiling: Reals, current: real)
  /** A command that went out, and what it was based on. */
  datatype Sent = Sent(at: Clock, slot: int, target: int, origin: int, measured: Measurement, reference: Joints,
                       command: Command)
  /** Asleep: its last wait is not over. */
  datatype Verdict = Running | Asleep | Stopped | Fault(reason: Reason)
  datatype Outcome = Outcome(verdict: Verdict, state: State, sent: Option<Sent>)

  function Woken(waited: Waited): Verdict {
    match waited
    case Waiting => Asleep
    case Interrupted => Stopped
    case Reached(_) => Running
  }

  // One period

  function Received(s: State, c: Cycle): State {
    if c.read.Fresh? then s.(latest := c.read.plan) else s
  }

  function Gates(cfg: Config, s: State, c: Cycle): Option<Reason> {
    if c.read.Failed? then Some(InternalError)
    else if c.at.now - s.next > cfg.timeouts.lateness then Some(OutputDeadline)
    else if c.at.now - c.target > cfg.timeouts.target then Some(StaleTarget)
    else Judge(cfg, c.measured, c.at.checked)
  }

  function Anchor(s: State, c: Cycle, j: nat): Point
    requires j < JOINTS
  {
    if s.active.generation != 0 then RefAt(s, j, c.at.now) else c.measured.joints[j]
  }

  function Transition(s: State, c: Cycle, j: nat): Cubic
    requires j < JOINTS
  {
    Bridge(Anchor(s, c, j), s.latest.knots[j], DT, Seconds(c.at.now - s.latest.origin))
  }

  function Transitions(s: State, c: Cycle): Cubics {
    seq(JOINTS, j requires 0 <= j < JOINTS => Transition(s, c, j))
  }

  ghost predicate KnotsChecked(cfg: Config, knots: Knots) {
    forall j: nat :: j < JOINTS ==> PlanChecked(knots[j], DT, JointLimits(cfg, j))
  }

  ghost predicate CubicsChecked(cfg: Config, cubics: Cubics) {
    forall j: nat :: j < JOINTS ==> Checked(cubics[j], DT, JointLimits(cfg, j))
  }

  /** Whether the plan to execute from now on is usable: the active one, or the latest if newer. */
  ghost function PlanGate(cfg: Config, s: State, c: Cycle): Option<Reason> {
    if s.latest.generation == s.active.generation then
      if s.active.generation != 0 && c.at.checked - s.active.origin > cfg.timeouts.plan then Some(StalePlan) else None
    else if c.at.checked - s.latest.origin > cfg.timeouts.plan then Some(StalePlan)
    else if !KnotsChecked(cfg, s.latest.knots) || !CubicsChecked(cfg, Transitions(s, c)) then Some(InvalidTrajectory)
    else None
  }

  function Adopt(s: State, c: Cycle): State {
    if s.latest.generation == s.active.generation then s
    else s.(active := s.latest, handoff := Handoff(c.at.now, Transitions(s, c)),
            count := s.count.(switches := s.count.switches + 1))
  }

  function References(s: State, t: int): Joints {
    seq(JOINTS, j requires 0 <= j < JOINTS => RefAt(s, j, t))
  }

  predicate Tracks(cfg: Config, reference: Joints, m: Measurement) {
    forall j: nat :: j < JOINTS ==> Abs(reference[j].q - m.joints[j].q) <= cfg.tracking
  }

  /** The speed a joint needs: the reference's own, what catches the feedback up in one planning
      interval, and what covers the reference's move since the last command in one output period. */
  function Needed(reference: Point, measured: Point, previous: Option<Point>): real {
    var own := Max(Abs(reference.dq), Abs(reference.q - measured.q) / 0.020);
    if previous.Some? then Max(own, Abs(reference.q - previous.value.q) / 0.002) else own
  }

  function Ceiling(cfg: Config, l: Limits, speed: real): real {
    Min(l.velocity, Max(0.0001, speed * cfg.excitation))
  }

  function PreviousAt(s: State, j: nat): Option<Point>
    requires j < JOINTS
  {
    if s.previous.Some? then Some(s.previous.value[j]) else None
  }

  function CeilingAt(cfg: Config, s: State, reference: Joints, m: Measurement, j: nat): real
    requires j < JOINTS
  {
    Ceiling(cfg, JointLimits(cfg, j), Needed(reference[j], m.joints[j], PreviousAt(s, j)))
  }

  function CommandFor(cfg: Config, s: State, reference: Joints, m: Measurement): Command {
    Command(seq(JOINTS, j requires 0 <= j < JOINTS => reference[j].q),
            seq(JOINTS, j requires 0 <= j < JOINTS => CeilingAt(cfg, s, reference, m, j)), cfg.current)
  }

  function Finish(cfg: Config, s: State, c: Cycle, sent: Option<Sent>): Outcome {
    if c.at.done - s.next > cfg.timeouts.lateness then Outcome(Fault(OutputDeadline), s, sent)
    else
      var t := CatchUp(s, c.at.done);
      if !c.published then Outcome(Fault(InternalError), t, sent) else Outcome(Running, t, sent)
  }

  // The period grid

  /** Grid points at or before `done`, counted from `next`. */
  function Skipped(next: int, done: int, period: int): nat
    requires period > 0
  {
    if next <= done then (done - next) / period + 1 else 0
  }

  function NextSlot(next: int, done: int, period: int): int
    requires period > 0
  {
    next + Skipped(next, done, period) * period
  }

  function CatchUp(s: State, done: int): State {
    var next := s.next + OUTPUT_PERIOD;
    s.(next := NextSlot(next, done, OUTPUT_PERIOD),
       count := s.count.(missed := s.count.missed + Skipped(next, done, OUTPUT_PERIOD)))
  }

  function Execute(cfg: Config, s: State, c: Cycle): Outcome {
    var reference := References(s, c.at.now);
    if !Tracks(cfg, reference, c.measured) then Outcome(Fault(TrackingError), s, None)
    else if c.at.submit - s.next > cfg.timeouts.lateness then Outcome(Fault(OutputDeadline), s, None)
    else if c.stopped then Outcome(Stopped, s, None)
    else
      var sent := Sent(c.at, s.next, c.target, s.active.origin, c.measured, reference,
                       CommandFor(cfg, s, reference, c.measured));
      Finish(cfg, s.(previous := Some(reference), count := s.count.(outputs := s.count.outputs + 1)), c, Some(sent))
  }

  ghost function Period(cfg: Config, s: State, c: Cycle): Outcome {
    var gates := Gates(cfg, s, c);
    var r := Received(s, c);
    if gates.Some? then Outcome(Fault(gates.value), if c.read.Failed? then s else r, None)
    else
      var gate := PlanGate(cfg, r, c);
      if gate.Some? then Outcome(Fault(gate.value), r, None)
      else
        var a := Adopt(r, c);
        if a.active.generation != 0 then Execute(cfg, a, c)
        else if c.at.checked - c.first > cfg.timeouts.plan then Outcome(Fault(StalePlan), a, None)
        else Finish(cfg, a, c, None)
  }
}
