/** What holds of every command an output worker ever sends, over whole runs. */
module MpcRuns {
  import opened MpcCubic
  import opened MpcSampling
  import opened MpcModel
  import opened Wrappers

  // The grid

  lemma Multiples(a: int, b: int, period: int)
    requires period > 0 && a <= b
    ensures a * period <= b * period
  {
  }

  lemma Divides(x: int, period: int)
    requires period > 0
    ensures var q := x / period; q * period <= x < q * period + period == (q + 1) * period
  {
  }

  /** Exactly the grid points up to `done` are counted as skipped. */
  lemma SkippedExactly(next: int, done: int, period: int, k: nat)
    requires period > 0
    ensures next + k * period <= done <==> k < Skipped(next, done, period)
  {
    Divides(done - next, period);
    Multiples(0, k, period);
    if next <= done {
      var q := (done - next) / period;
      if k <= q { Multiples(k, q, period); } else { Multiples(q + 1, k, period); }
    }
  }

  /** The next slot is the first grid point after `done`. */
  lemma NextSlotIsFirst(next: int, done: int, period: int)
    requires period > 0
    ensures next <= done ==> done < NextSlot(next, done, period) <= done + period
    ensures next > done ==> NextSlot(next, done, period) == next
  {
    Divides(done - next, period);
  }

  // What a reference is while a plan is active

  ghost predicate StateOk(cfg: Config, s: State) {
    s.active.generation != 0 ==>
      && s.handoff.Handoff?
      && KnotsChecked(cfg, s.active.knots)
      && CubicsChecked(cfg, s.handoff.cubics)
      && forall j: nat :: j < JOINTS ==> JoinsAt(s, j)
  }

  predicate JoinsAt(s: State, j: nat)
    requires s.handoff.Handoff? && j < JOINTS
  {
    Joins(s.handoff.cubics[j], s.active.knots[j], DT, Seconds(s.handoff.start - s.active.origin))
  }

  lemma ReferenceIsBridged(s: State, j: nat, t: int)
    requires s.handoff.Handoff? && j < JOINTS
    ensures RefAt(s, j, t) == Bridged(s.handoff.cubics[j], s.active.knots[j], DT,
                                      Seconds(s.handoff.start - s.active.origin), Seconds(t - s.handoff.start))
  {
    hide Sample, SampleKnots;
    assert Seconds(s.handoff.start - s.active.origin) + Seconds(t - s.handoff.start)
        == Seconds(t - s.active.origin);
  }

  lemma ReferenceInLimits(cfg: Config, s: State, j: nat, t: int)
    requires StateOk(cfg, s) && s.active.generation != 0 && j < JOINTS
    ensures InLimits(JointLimits(cfg, j), RefAt(s, j, t).q)
  {
    hide RefAt, Bridged, Joins, Checked, PlanChecked, InLimits;
    ReferenceIsBridged(s, j, t);
    BridgedInLimits(s.handoff.cubics[j], s.active.knots[j], DT,
                    Seconds(s.handoff.start - s.active.origin), JointLimits(cfg, j), Seconds(t - s.handoff.start));
  }

  function JointSpeed(cfg: Config, j: nat): real
    requires j < JOINTS
  {
    SpeedBound(JointLimits(cfg, j), DT)
  }

  /** The joint can get from p to q between the times t and u without exceeding its speed limit. */
  predicate Reaches(cfg: Config, j: nat, p: real, q: real, t: int, u: int)
    requires j < JOINTS
  {
    Abs(q - p) <= JointSpeed(cfg, j) * Seconds(u - t)
  }

  lemma ReferenceMoves(cfg: Config, s: State, j: nat, t: int, u: int)
    requires ValidConfig(cfg) && StateOk(cfg, s) && s.active.generation != 0 && j < JOINTS
    requires s.handoff.start <= t <= u
    ensures Reaches(cfg, j, RefAt(s, j, t).q, RefAt(s, j, u).q, t, u)
  {
    hide RefAt, Bridged, Joins, Checked, PlanChecked, SpeedBound;
    ReferenceIsBridged(s, j, t);
    ReferenceIsBridged(s, j, u);
    var start := s.handoff.start;
    assert JoinsAt(s, j);
    BridgedMoves(s.handoff.cubics[j], s.active.knots[j], DT, Seconds(start - s.active.origin),
                 JointLimits(cfg, j), Seconds(t - start), Seconds(u - start));
    assert Seconds(u - start) - Seconds(t - start) == Seconds(u - t);
  }

  /** In particular at the session's own interval and joint limits, of every joint. */
  lemma SmallCoefficientsEscapeHere(cfg: Config, j: nat, e: real, root: real)
    requires ValidConfig(cfg) && j < JOINTS && 0.0 < Abs(e) <= NEGLIGIBLE
    ensures var l := JointLimits(cfg, j);
            && Within(QuadraticDip(e, l), DT, l, root) && !PositionOk(QuadraticDip(e, l), l, 0.5)
            && Within(CubicDip(e, l), DT, l, root) && !PositionOk(CubicDip(e, l), l, 0.5)
  {
    SmallCoefficientsEscape(e, DT, JointLimits(cfg, j), root);
  }

  // Adopting a plan

  lemma AdoptedIsOk(cfg: Config, s: State, c: Cycle)
    requires StateOk(cfg, s) && PlanGate(cfg, s, c) == None
    ensures StateOk(cfg, Adopt(s, c))
  {
    hide RefAt, Joins, Checked, PlanChecked, Sample, SampleKnots, Hermite;
    var a := Adopt(s, c);
    if s.latest.generation != s.active.generation {
      forall j: nat | j < JOINTS ensures JoinsAt(a, j) {
        HandoffIsSmooth(Anchor(s, c, j), s.latest.knots[j], DT, Seconds(c.at.now - s.latest.origin));
      }
    }
  }

  /** A handoff does not move the reference at the instant it happens. */
  lemma AdoptKeepsReference(s: State, c: Cycle, j: nat)
    requires j < JOINTS && s.latest.generation != s.active.generation
    ensures RefAt(Adopt(s, c), j, c.at.now) == Anchor(s, c, j)
  {
    hide Joins, SampleKnots, Hermite, Sample;
    HandoffIsSmooth(Anchor(s, c, j), s.latest.knots[j], DT, Seconds(c.at.now - s.latest.origin));
  }

  // Every command

  /** The command's speed ceiling covers what the joint has to do, as far as the limit allows. */
  predicate CeilingOk(l: Limits, ceiling: real, reference: Point, measured: Point) {
    && 0.0 < ceiling <= l.velocity
    && ceiling >= Min(l.velocity, Abs(reference.dq))
    && ceiling >= Min(l.velocity, Abs(reference.q - measured.q) / 0.020)
  }

  ghost predicate JointSafe(cfg: Config, e: Sent, j: nat)
    requires j < JOINTS
  {
    var l := JointLimits(cfg, j);
    && e.command.q[j] == e.reference[j].q
    && InLimits(l, e.command.q[j])
    && Abs(e.command.q[j] - e.measured.joints[j].q) <= cfg.tracking
    && JointOk(l, e.measured.joints[j])
    && CeilingOk(l, e.command.ceiling[j], e.reference[j], e.measured.joints[j])
    && 0.0 < e.command.current <= 1.0
  }

  /** What a command that goes out is based on: live, valid and recent feedback, a recent plan, a
      recent target, a slot that is not missed by more than the limit. */
  predicate Timely(cfg: Config, e: Sent) {
    && e.measured.connected && e.measured.finite && e.measured.errors == 0
    && e.measured.received != 0 && 0 <= e.at.checked - e.measured.received <= cfg.timeouts.state
    && e.at.checked - e.origin <= cfg.timeouts.plan
    && e.at.now - e.target <= cfg.timeouts.target
    && e.at.now - e.slot <= cfg.timeouts.lateness && e.at.submit - e.slot <= cfg.timeouts.lateness
  }

  ghost predicate Safe(cfg: Config, e: Sent) {
    Timely(cfg, e) && forall j: nat :: j < JOINTS ==> JointSafe(cfg, e, j)
  }

  lemma Stretched(speed: real, factor: real, product: real)
    requires speed >= 0.0 && factor >= 1.0 && product == speed * factor
    ensures product >= speed
  {
    ScaledBy(speed, 1.0, factor);
  }

  lemma CeilingAtLeast(cfg: Config, l: Limits, speed: real, x: real)
    requires cfg.excitation >= 1.0 && 0.0 <= x <= speed
    ensures Ceiling(cfg, l, speed) >= Min(l.velocity, x)
    ensures l.velocity > 0.0 ==> 0.0 < Ceiling(cfg, l, speed) <= l.velocity
  {
    Stretched(speed, cfg.excitation, speed * cfg.excitation);
  }

  lemma CeilingCovers(cfg: Config, l: Limits, reference: Point, measured: Point, previous: Option<Point>)
    requires cfg.excitation >= 1.0 && l.velocity > 0.0
    ensures CeilingOk(l, Ceiling(cfg, l, Needed(reference, measured, previous)), reference, measured)
  {
    var speed := Needed(reference, measured, previous);
    CeilingAtLeast(cfg, l, speed, Abs(reference.dq));
    CeilingAtLeast(cfg, l, speed, Abs(reference.q - measured.q) / 0.020);
  }

  /** The ceiling also covers the reference's move since the last command. */
  lemma CeilingCoversTheLastMove(cfg: Config, l: Limits, reference: Point, measured: Point, previous: Point)
    requires cfg.excitation >= 1.0
    ensures Ceiling(cfg, l, Needed(reference, measured, Some(previous)))
         >= Min(l.velocity, Abs(reference.q - previous.q) / 0.002)
  {
    var speed := Needed(reference, measured, Some(previous));
    CeilingAtLeast(cfg, l, speed, Abs(reference.q - previous.q) / 0.002);
  }

  ghost predicate SentBy(cfg: Config, a: State, c: Cycle, e: Sent) {
    && a.active.generation != 0
    && e.at == c.at && e.slot == a.next && e.target == c.target && e.origin == a.active.origin
    && e.measured == c.measured && e.reference == References(a, c.at.now)
    && e.command == CommandFor(cfg, a, e.reference, c.measured)
  }

  /** A command goes out only past every gate, and is the one for the plan adopted. */
  lemma SentPastTheGates(cfg: Config, s: State, c: Cycle)
    requires Period(cfg, s, c).sent.Some?
    ensures var r := Received(s, c);
            Gates(cfg, s, c) == None && PlanGate(cfg, r, c) == None && !c.stopped
            && JointsOk(cfg, c.measured) && Tracks(cfg, Period(cfg, s, c).sent.value.reference, c.measured)
            && c.at.submit - s.next <= cfg.timeouts.lateness
            && SentBy(cfg, Adopt(r, c), c, Period(cfg, s, c).sent.value)
  {
    hide RefAt, KnotsChecked, CubicsChecked, CommandFor, References, Transitions, Tracks, CatchUp, JointsOk;
  }

  lemma SentIsTimely(cfg: Config, s: State, c: Cycle)
    requires Period(cfg, s, c).sent.Some?
    ensures Timely(cfg, Period(cfg, s, c).sent.value)
  {
    SentPastTheGates(cfg, s, c);
    hide Period, RefAt, KnotsChecked, CubicsChecked, CommandFor, References, Transitions, Tracks, JointsOk;
    assert JointsOk(cfg, c.measured);
    assert c.measured.finite by { FiniteWhenOk(cfg, c.measured); }
  }

  lemma FiniteWhenOk(cfg: Config, m: Measurement)
    requires JointsOk(cfg, m)
    ensures m.finite
  {
  }

  lemma SentJointIsSafe(cfg: Config, a: State, c: Cycle, e: Sent, j: nat)
    requires ValidConfig(cfg) && StateOk(cfg, a) && SentBy(cfg, a, c, e) && j < JOINTS
    requires JointsOk(cfg, c.measured) && Tracks(cfg, e.reference, c.measured)
    ensures JointSafe(cfg, e, j)
  {
    hide RefAt, InLimits, CeilingOk, Ceiling, Needed, StateOk;
    ReferenceInLimits(cfg, a, j, c.at.now);
    CeilingCovers(cfg, JointLimits(cfg, j), RefAt(a, j, c.at.now), c.measured.joints[j], PreviousAt(a, j));
  }

  lemma ReceivedIsOk(cfg: Config, s: State, c: Cycle)
    requires StateOk(cfg, s)
    ensures StateOk(cfg, Received(s, c))
  {
    hide KnotsChecked, CubicsChecked, Joins;
    var r := Received(s, c);
    if r.active.generation != 0 {
      forall j: nat | j < JOINTS ensures JoinsAt(r, j) {
        assert JoinsAt(s, j);
      }
    }
  }

  lemma SentIsSafe(cfg: Config, s: State, c: Cycle)
    requires ValidConfig(cfg) && StateOk(cfg, s) && Period(cfg, s, c).sent.Some?
    ensures Safe(cfg, Period(cfg, s, c).sent.value)
  {
    SentPastTheGates(cfg, s, c);
    SentIsTimely(cfg, s, c);
    hide *;
    ReceivedIsOk(cfg, s, c);
    AdoptedIsOk(cfg, Received(s, c), c);
    JointsAreSafe(cfg, Adopt(Received(s, c), c), c, Period(cfg, s, c).sent.value);
  }

  lemma JointsAreSafe(cfg: Config, a: State, c: Cycle, e: Sent)
    requires ValidConfig(cfg) && StateOk(cfg, a) && SentBy(cfg, a, c, e) && Timely(cfg, e)
    requires JointsOk(cfg, c.measured) && Tracks(cfg, e.reference, c.measured)
    ensures Safe(cfg, e)
  {
    hide ValidConfig, JointSafe, Tracks, JointsOk, Timely, SentBy, StateOk;
    forall j: nat | j < JOINTS ensures JointSafe(cfg, e, j) {
      SentJointIsSafe(cfg, a, c, e, j);
    }
  }

  /** Everything that is asked before a command goes out. */
  ghost predicate Ready(cfg: Config, s: State, c: Cycle) {
    var r := Received(s, c);
    var a := Adopt(r, c);
    && !c.read.Failed? && !c.stopped
    && c.at.now - s.next <= cfg.timeouts.lateness && c.at.submit - s.next <= cfg.timeouts.lateness
    && c.at.now - c.target <= cfg.timeouts.target
    && c.measured.connected && c.measured.received != 0 && c.measured.errors == 0 && JointsOk(cfg, c.measured)
    && 0 <= c.at.checked - c.measured.received <= cfg.timeouts.state
    && a.active.generation != 0 && c.at.checked - a.active.origin <= cfg.timeouts.plan
    && (r.latest.generation != r.active.generation ==>
          KnotsChecked(cfg, r.latest.knots) && CubicsChecked(cfg, Transitions(r, c)))
    && Tracks(cfg, References(a, c.at.now), c.measured)
  }

  /** A command goes out exactly when everything asked for is there: nothing is sent without it, and
      nothing else holds a command back. */
  lemma SentExactlyWhenReady(cfg: Config, s: State, c: Cycle)
    ensures Period(cfg, s, c).sent.Some? <==> Ready(cfg, s, c)
  {
    hide RefAt, KnotsChecked, CubicsChecked, CommandFor, References, Transitions, Tracks, CatchUp, JointsOk;
  }
}
