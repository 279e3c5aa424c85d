/** Theorems about every run of an output worker, whatever plans, feedback and delays it meets. */
module MpcTheorems {
  import opened MpcCubic
  import opened MpcSampling
  import opened MpcModel
  import opened MpcRuns
  import opened MpcWait
  import opened Wrappers

  /** The worker after a number of periods and the waits that end them, and everything it has sent. */
  datatype Trace = Trace(verdict: Verdict, state: State, log: seq<Sent>, finished: int)

  ghost function After(cfg: Config, p: Trace, c: Cycle): Trace {
    if !p.verdict.Running? then p
    else
      var o := Period(cfg, p.state, c);
      var (verdict, finished) := Awaited(o.verdict, o.state.next, c);
      Trace(verdict, o.state, if o.sent.Some? then p.log + [o.sent.value] else p.log, finished)
  }

  /** A period that ends well is followed by the wait for the next slot. */
  function Awaited(verdict: Verdict, next: int, c: Cycle): (Verdict, int) {
    var waited := WaitUntil(next, c.wait);
    if verdict.Running? then (Woken(waited), if waited.Reached? then waited.now else c.at.done)
    else (verdict, c.at.done)
  }

  lemma AwaitedInTime(next: int, c: Cycle)
    requires Possible(c.wait, c.at.done) && Awaited(Running, next, c).0.Running?
    ensures next <= Awaited(Running, next, c).1 && c.at.done <= Awaited(Running, next, c).1
  {
    ReachedInTime(next, c.wait, c.at.done);
  }

  ghost function Run(cfg: Config, start: int, cycles: seq<Cycle>): Trace {
    if cycles == [] then Trace(Running, Initial(start), [], start)
    else After(cfg, Run(cfg, start, cycles[..|cycles| - 1]), cycles[|cycles| - 1])
  }

  /** The clock never goes back, a stop is never withdrawn, and a published plan has a generation. */
  predicate CycleOk(p: Trace, c: Cycle) {
    && p.finished <= c.at.now <= c.at.checked <= c.at.submit <= c.at.done && Possible(c.wait, c.at.done)
    && (c.read.Fresh? ==> c.read.plan.generation > 0)
  }

  ghost predicate Paced(cfg: Config, start: int, cycles: seq<Cycle>) {
    cycles == [] ||
    (var before := cycles[..|cycles| - 1];
     Paced(cfg, start, before) &&
     (Run(cfg, start, before).verdict.Running? ==> CycleOk(Run(cfg, start, before), cycles[|cycles| - 1])))
  }

  // The reference moves no faster than the limit, across every handoff

  ghost predicate Moves(cfg: Config, e: Sent, f: Sent) {
    && e.at.now <= f.at.now
    && forall j: nat :: j < JOINTS ==> JointMoves(cfg, e, f, j)
  }

  predicate JointMoves(cfg: Config, e: Sent, f: Sent, j: nat)
    requires j < JOINTS
  {
    Reaches(cfg, j, e.command.q[j], f.command.q[j], e.at.now, f.at.now)
  }

  /** The last command sent is where the reference was at that time. */
  predicate LastSent(s: State, e: Sent) {
    && s.active.generation != 0 && s.handoff.Handoff? && s.handoff.start <= e.at.now
    && e.reference == References(s, e.at.now) && s.previous == Some(e.reference)
    && forall j: nat :: j < JOINTS ==> e.command.q[j] == e.reference[j].q
  }

  lemma AdoptedMoves(cfg: Config, s: State, c: Cycle, j: nat, t: int)
    requires ValidConfig(cfg) && StateOk(cfg, s) && s.active.generation != 0 && j < JOINTS
    requires s.handoff.start <= t <= c.at.now
    ensures Reaches(cfg, j, RefAt(s, j, t).q, RefAt(Adopt(s, c), j, c.at.now).q, t, c.at.now)
  {
    hide RefAt, StateOk, Reaches, Transitions;
    ReferenceMoves(cfg, s, j, t, c.at.now);
    if s.latest.generation != s.active.generation { AdoptKeepsReference(s, c, j); }
  }

  lemma SentMoves(cfg: Config, s: State, c: Cycle, e: Sent, f: Sent)
    requires ValidConfig(cfg) && StateOk(cfg, s) && LastSent(s, e) && e.at.now <= c.at.now
    requires SentBy(cfg, Adopt(Received(s, c), c), c, f)
    ensures Moves(cfg, e, f)
  {
    hide StateOk, Reaches, RefAt, ValidConfig;
    ReceivedIsOk(cfg, s, c);
    forall j: nat | j < JOINTS ensures JointMoves(cfg, e, f, j) {
      SameReference(s, Received(s, c), j, e.at.now);
      AdoptedMoves(cfg, Received(s, c), c, j, e.at.now);
    }
  }

  lemma SameReference(s: State, r: State, j: nat, t: int)
    requires j < JOINTS && s.active == r.active && s.handoff == r.handoff
    ensures RefAt(s, j, t) == RefAt(r, j, t)
  {
  }

  // The invariant of a run

  ghost predicate Chained(cfg: Config, log: seq<Sent>) {
    forall i: nat :: i + 1 < |log| ==> Moves(cfg, log[i], log[i + 1])
  }

  ghost predicate AllSafe(cfg: Config, log: seq<Sent>) {
    forall i: nat :: i < |log| ==> Safe(cfg, log[i])
  }

  /** A worker that is still running executes a plan exactly when it has sent something. */
  ghost predicate Live(cfg: Config, t: Trace) {
    && StateOk(cfg, t.state)
    && (t.state.active.generation != 0 ==> t.state.latest.generation != 0)
    && t.state.count.outputs == |t.log|
    && if |t.log| == 0 then t.state.active.generation == 0 && t.state.previous == None
       else LastSent(t.state, t.log[|t.log| - 1]) && t.log[|t.log| - 1].at.now <= t.finished
  }

  /** The first command holds the joints where they were measured. */
  predicate Holds(e: Sent) { e.reference == e.measured.joints }

  ghost predicate TraceOk(cfg: Config, t: Trace) {
    && AllSafe(cfg, t.log) && Chained(cfg, t.log)
    && (t.log != [] ==> Holds(t.log[0]))
    && (t.verdict.Running? ==> Live(cfg, t))
  }

  lemma RunningPast(cfg: Config, s: State, c: Cycle)
    requires Period(cfg, s, c).verdict.Running?
    ensures var r, o := Received(s, c), Period(cfg, s, c);
            PlanGate(cfg, r, c) == None
            && (o.sent.Some? <==> Adopt(r, c).active.generation != 0)
            && o.state.active == Adopt(r, c).active && o.state.handoff == Adopt(r, c).handoff
            && o.state.latest == r.latest
            && (o.sent.Some? ==> o.state.previous == Some(o.sent.value.reference)
                                 && o.state.count.outputs == s.count.outputs + 1)
            && (o.sent.None? ==> o.state.previous == s.previous && o.state.count.outputs == s.count.outputs)
  {
    hide RefAt, KnotsChecked, CubicsChecked, CommandFor, References, Transitions, Tracks, JointsOk, NextSlot, Skipped;
  }

  lemma SameOk(cfg: Config, a: State, b: State)
    requires StateOk(cfg, a) && a.active == b.active && a.handoff == b.handoff
    ensures StateOk(cfg, b)
  {
    hide KnotsChecked, CubicsChecked, Joins;
    if b.active.generation != 0 {
      forall j: nat | j < JOINTS ensures JoinsAt(b, j) { assert JoinsAt(a, j); }
    }
  }

  lemma FirstHolds(cfg: Config, s: State, c: Cycle, e: Sent)
    requires s.active.generation == 0 && SentBy(cfg, Adopt(Received(s, c), c), c, e)
    ensures Holds(e)
  {
    hide RefAt, Transitions, CommandFor;
    var r := Received(s, c);
    forall j: nat | j < JOINTS ensures e.reference[j] == e.measured.joints[j] {
      AdoptKeepsReference(r, c, j);
    }
    assert e.reference == e.measured.joints;
  }

  lemma LogGrows(cfg: Config, p: Trace, c: Cycle)
    requires ValidConfig(cfg) && TraceOk(cfg, p) && p.verdict.Running? && CycleOk(p, c)
    requires Period(cfg, p.state, c).sent.Some?
    ensures var t := After(cfg, p, c); AllSafe(cfg, t.log) && Chained(cfg, t.log) && Holds(t.log[0])
  {
    var e := Period(cfg, p.state, c).sent.value;
    SentIsSafe(cfg, p.state, c);
    SentPastTheGates(cfg, p.state, c);
    hide Period, StateOk, SentBy, LastSent, Moves, Safe, Holds, PlanGate, Gates, Tracks, JointsOk;
    if |p.log| == 0 {
      FirstHolds(cfg, p.state, c, e);
    } else {
      assert e.at == c.at by { SentWhen(cfg, Adopt(Received(p.state, c), c), c, e); }
      SentMoves(cfg, p.state, c, p.log[|p.log| - 1], e);
    }
  }

  lemma SentWhen(cfg: Config, a: State, c: Cycle, e: Sent)
    requires SentBy(cfg, a, c, e)
    ensures e.at == c.at
  {
  }

  /** A period that goes on keeps the worker's state sound. */
  lemma StillSound(cfg: Config, s: State, c: Cycle)
    requires StateOk(cfg, s) && Period(cfg, s, c).verdict.Running?
    ensures StateOk(cfg, Period(cfg, s, c).state)
  {
    RunningPast(cfg, s, c);
    hide *;
    ReceivedIsOk(cfg, s, c);
    AdoptedIsOk(cfg, Received(s, c), c);
    SameOk(cfg, Adopt(Received(s, c), c), Period(cfg, s, c).state);
  }

  lemma LastSentHolds(cfg: Config, s: State, c: Cycle)
    requires StateOk(cfg, s) && Period(cfg, s, c).verdict.Running? && Period(cfg, s, c).sent.Some?
    requires s.active.generation != 0 ==> s.handoff.Handoff? && s.handoff.start <= c.at.now
    ensures LastSent(Period(cfg, s, c).state, Period(cfg, s, c).sent.value)
  {
    RunningPast(cfg, s, c);
    SentPastTheGates(cfg, s, c);
    hide Period, StateOk, PlanGate, Gates, Tracks, JointsOk, RefAt, Transitions, CeilingAt;
    var a, o := Adopt(Received(s, c), c), Period(cfg, s, c);
    SameReferences(a, o.state, c.at.now);
  }

  lemma SameReferences(s: State, r: State, t: int)
    requires s.active == r.active && s.handoff == r.handoff
    ensures References(s, t) == References(r, t)
  {
    hide Sample, SampleKnots;
  }

  lemma StillLive(cfg: Config, p: Trace, c: Cycle)
    requires ValidConfig(cfg) && TraceOk(cfg, p) && p.verdict.Running? && CycleOk(p, c)
    requires After(cfg, p, c).verdict.Running?
    ensures Live(cfg, After(cfg, p, c))
  {
    AwaitedInTime(Period(cfg, p.state, c).state.next, c);
    hide WaitUntil, Possible;
    StillSound(cfg, p.state, c);
    RunningPast(cfg, p.state, c);
    if Period(cfg, p.state, c).sent.Some? {
      LastSentHolds(cfg, p.state, c);
      SentPastTheGates(cfg, p.state, c);
    }
    hide Period, StateOk, References, PlanGate, Gates, Tracks, JointsOk, CommandFor, Transitions;
  }

  lemma {:induction false} RunIsOk(cfg: Config, start: int, cycles: seq<Cycle>)
    requires ValidConfig(cfg) && Paced(cfg, start, cycles)
    ensures TraceOk(cfg, Run(cfg, start, cycles))
  {
    if cycles != [] {
      var p, c := Run(cfg, start, cycles[..|cycles| - 1]), cycles[|cycles| - 1];
      RunIsOk(cfg, start, cycles[..|cycles| - 1]);
      if p.verdict.Running? {
        hide Period, Live, AllSafe, Chained, Holds;
        if Period(cfg, p.state, c).sent.Some? { LogGrows(cfg, p, c); }
        if After(cfg, p, c).verdict.Running? { StillLive(cfg, p, c); }
      }
    }
  }

  // Main results

  /** Whatever plans, feedback and delays a worker meets, every command it ever sends is safe: its
      position is inside the joint limits and the tracking bound of valid recent feedback, it comes
      from a recent plan and target, and its speed ceiling is positive and within the limit. */
  lemma EveryCommandIsSafe(cfg: Config, start: int, cycles: seq<Cycle>, i: nat)
    requires ValidConfig(cfg) && Paced(cfg, start, cycles) && i < |Run(cfg, start, cycles).log|
    ensures Safe(cfg, Run(cfg, start, cycles).log[i])
  {
    RunIsOk(cfg, start, cycles);
  }

  /** The first command holds every joint where it was measured. */
  lemma FirstCommandHoldsPosition(cfg: Config, start: int, cycles: seq<Cycle>, j: nat)
    requires ValidConfig(cfg) && Paced(cfg, start, cycles) && Run(cfg, start, cycles).log != [] && j < JOINTS
    ensures var e := Run(cfg, start, cycles).log[0]; e.command.q[j] == e.measured.joints[j].q
  {
    RunIsOk(cfg, start, cycles);
    var e := Run(cfg, start, cycles).log[0];
    hide Run, CeilingOk, InLimits;
    assert Safe(cfg, e) && JointSafe(cfg, e, j);
  }

  lemma ReachesFurther(cfg: Config, j: nat, p: real, q: real, r: real, t: int, u: int, v: int)
    requires j < JOINTS && Reaches(cfg, j, p, q, t, u) && Reaches(cfg, j, q, r, u, v)
    ensures Reaches(cfg, j, p, r, t, v)
  {
    hide JointSpeed;
    Joined(p, q, r, JointSpeed(cfg, j), Seconds(t), Seconds(u), Seconds(v));
  }

  lemma {:induction false} LogReaches(cfg: Config, log: seq<Sent>, i: nat, k: nat, j: nat)
    requires Chained(cfg, log) && i <= k < |log| && j < JOINTS
    ensures log[i].at.now <= log[k].at.now
    ensures Reaches(cfg, j, log[i].command.q[j], log[k].command.q[j], log[i].at.now, log[k].at.now)
    decreases k - i
  {
    if i < k {
      LogReaches(cfg, log, i, k - 1, j);
      assert Moves(cfg, log[k - 1], log[k]) && JointMoves(cfg, log[k - 1], log[k], j);
      ReachesFurther(cfg, j, log[i].command.q[j], log[k - 1].command.q[j], log[k].command.q[j],
                     log[i].at.now, log[k - 1].at.now, log[k].at.now);
    } else {
      hide JointSpeed;
      assert Seconds(log[k].at.now - log[i].at.now) == 0.0;
    }
  }

  /** Between any two commands of a run no joint is asked to move further than its speed limit
      allows in that time, whatever plans were handed over in between. */
  lemma CommandsNeverJump(cfg: Config, start: int, cycles: seq<Cycle>, i: nat, k: nat, j: nat)
    requires ValidConfig(cfg) && Paced(cfg, start, cycles) && j < JOINTS
    requires i <= k < |Run(cfg, start, cycles).log|
    ensures var log := Run(cfg, start, cycles).log;
            log[i].at.now <= log[k].at.now &&
            Reaches(cfg, j, log[i].command.q[j], log[k].command.q[j], log[i].at.now, log[k].at.now)
  {
    RunIsOk(cfg, start, cycles);
    LogReaches(cfg, Run(cfg, start, cycles).log, i, k, j);
  }

  // The grid, over a run

  /** Commands belong to slots that have come, and to a later slot each. */
  predicate Slotted(log: seq<Sent>) {
    && (forall i: nat :: i < |log| ==> log[i].slot <= log[i].at.now)
    && (forall i: nat :: i + 1 < |log| ==> log[i].slot + OUTPUT_PERIOD <= log[i + 1].slot)
  }

  predicate Ahead(t: Trace) {
    && t.state.next <= t.finished
    && (t.log != [] ==> t.log[|t.log| - 1].slot + OUTPUT_PERIOD <= t.state.next)
  }

  lemma {:induction false} RunIsSlotted(cfg: Config, start: int, cycles: seq<Cycle>)
    requires Paced(cfg, start, cycles)
    ensures Slotted(Run(cfg, start, cycles).log)
    ensures Run(cfg, start, cycles).verdict.Running? ==> Ahead(Run(cfg, start, cycles))
  {
    if cycles != [] {
      var p, c := Run(cfg, start, cycles[..|cycles| - 1]), cycles[|cycles| - 1];
      RunIsSlotted(cfg, start, cycles[..|cycles| - 1]);
      if p.verdict.Running? { StillSlotted(cfg, p, c); }
    }
  }

  lemma StillSlotted(cfg: Config, p: Trace, c: Cycle)
    requires p.verdict.Running? && Slotted(p.log) && Ahead(p) && CycleOk(p, c)
    ensures var t := After(cfg, p, c); Slotted(t.log) && (t.verdict.Running? ==> Ahead(t))
  {
    var o := Period(cfg, p.state, c);
    if o.sent.Some? { SlotOfSent(cfg, p.state, c); }
    if o.verdict.Running? {
      PeriodAdvances(cfg, p.state, c);
      if Awaited(Running, o.state.next, c).0.Running? { AwaitedInTime(o.state.next, c); }
    }
    hide Period, Possible, Awaited;
  }

  lemma SlotOfSent(cfg: Config, s: State, c: Cycle)
    requires Period(cfg, s, c).sent.Some?
    ensures Period(cfg, s, c).sent.value.slot == s.next && Period(cfg, s, c).sent.value.at == c.at
  {
    SentPastTheGates(cfg, s, c);
    hide Period, Gates, PlanGate, Tracks, JointsOk, Transitions, References, CommandFor;
  }

  /** No slot gets two commands, and none gets its command before it has come. */
  lemma {:induction false} OneCommandASlot(cfg: Config, start: int, cycles: seq<Cycle>, i: nat, k: nat)
    requires Paced(cfg, start, cycles) && i <= k < |Run(cfg, start, cycles).log|
    ensures var log := Run(cfg, start, cycles).log;
            log[k].slot <= log[k].at.now && log[i].slot + OUTPUT_PERIOD * (k - i) <= log[k].slot
    decreases k - i
  {
    RunIsSlotted(cfg, start, cycles);
    hide Run, Paced;
    if i < k { OneCommandASlot(cfg, start, cycles, i, k - 1); }
  }

  /** In every run no period starts before its slot, and after it the next slot lies ahead. */
  lemma PeriodsKeepToTheirSlots(cfg: Config, start: int, cycles: seq<Cycle>, c: Cycle)
    requires Paced(cfg, start, cycles + [c]) && Run(cfg, start, cycles).verdict.Running?
    ensures var s := Run(cfg, start, cycles).state;
            && s.next <= c.at.now
            && (Period(cfg, s, c).verdict.Running? ==>
                  c.at.done < Period(cfg, s, c).state.next <= c.at.done + OUTPUT_PERIOD)
  {
    var all := cycles + [c];
    assert all[..|all| - 1] == cycles && all[|all| - 1] == c;
    assert Paced(cfg, start, cycles) && CycleOk(Run(cfg, start, cycles), c);
    RunIsSlotted(cfg, start, cycles);
    hide Period, Run, Possible;
    if Period(cfg, Run(cfg, start, cycles).state, c).verdict.Running? {
      NextSlotIsAhead(cfg, Run(cfg, start, cycles).state, c);
    }
  }

  lemma PeriodAdvances(cfg: Config, s: State, c: Cycle)
    requires Period(cfg, s, c).verdict.Running?
    ensures var o, next := Period(cfg, s, c), s.next + OUTPUT_PERIOD;
            o.state.next == NextSlot(next, c.at.done, OUTPUT_PERIOD)
            && o.state.count.missed == s.count.missed + Skipped(next, c.at.done, OUTPUT_PERIOD)
            && c.at.now - s.next <= cfg.timeouts.lateness && c.at.done - s.next <= cfg.timeouts.lateness
  {
    hide RefAt, KnotsChecked, CubicsChecked, CommandFor, References, Transitions, Tracks, JointsOk, NextSlot, Skipped;
  }

  lemma Counted(start: int, n: nat, missed: nat, skipped: nat, period: int)
    ensures start + period * (n + missed) + period + skipped * period == start + period * (n + 1 + (missed + skipped))
  {
  }

  /** The slots a worker has passed are the periods it completed and the ones it counted as missed:
      no slot is lost and none is used twice. */
  lemma {:induction false} GridIsConserved(cfg: Config, start: int, cycles: seq<Cycle>)
    requires Run(cfg, start, cycles).verdict.Running?
    ensures var s := Run(cfg, start, cycles).state;
            s.next == start + OUTPUT_PERIOD * (|cycles| + s.count.missed)
  {
    if cycles != [] {
      var p, c := Run(cfg, start, cycles[..|cycles| - 1]), cycles[|cycles| - 1];
      GridIsConserved(cfg, start, cycles[..|cycles| - 1]);
      PeriodAdvances(cfg, p.state, c);
      hide Period;
      Counted(start, |cycles| - 1, p.state.count.missed,
              Skipped(p.state.next + OUTPUT_PERIOD, c.at.done, OUTPUT_PERIOD), OUTPUT_PERIOD);
    }
  }

  /** After a period the next slot lies ahead, by one period at most when the work overran its
      own slot, and the slots it missed fit into the lateness limit. */
  lemma NextSlotIsAhead(cfg: Config, s: State, c: Cycle)
    requires Period(cfg, s, c).verdict.Running? && s.next <= c.at.now <= c.at.done
    ensures c.at.done < Period(cfg, s, c).state.next <= c.at.done + OUTPUT_PERIOD
    ensures (Period(cfg, s, c).state.count.missed - s.count.missed) * OUTPUT_PERIOD <= cfg.timeouts.lateness
  {
    PeriodAdvances(cfg, s, c);
    hide Period;
    NextSlotIsFirst(s.next + OUTPUT_PERIOD, c.at.done, OUTPUT_PERIOD);
    var n := Skipped(s.next + OUTPUT_PERIOD, c.at.done, OUTPUT_PERIOD);
    if n > 0 { SkippedExactly(s.next + OUTPUT_PERIOD, c.at.done, OUTPUT_PERIOD, n - 1); }
  }
}
