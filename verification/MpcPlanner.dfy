/** The planning worker: one solve a period, on feedback that passed the same checks. */
module MpcPlanner {
  import opened MpcModel
  import opened MpcRuns
  import opened MpcWait
  import opened Wrappers

  datatype Tally = Tally(solves: nat, failures: nat, missed: nat)
  datatype Planning = Planning(next: int, generation: nat, tally: Tally)
  /** What one planning period meets: feedback, the solver's verdict (0 is success) and plan, when
      things happened, which mailbox operations worked, and the wait for the next period. */
  datatype Solve = Solve(result: int, knots: Knots, done: int, stopped: bool)
  datatype Boxes = Boxes(target: bool, plan: bool, status: bool)
  datatype PlanCycle = PlanCycle(measured: Measurement, checked: int, solve: Solve, boxes: Boxes, wait: Wait)
  datatype Planned = Planned(verdict: Verdict, state: Planning, plan: Option<Plan>)

  function Solved(s: Planning, result: int): Planning {
    s.(tally := s.tally.(solves := s.tally.solves + 1,
                         failures := if result != 0 then s.tally.failures + 1 else s.tally.failures))
  }

  function Advanced(s: Planning, done: int): Planning {
    var next := s.next + PLANNING_PERIOD;
    s.(next := NextSlot(next, done, PLANNING_PERIOD),
       tally := s.tally.(missed := s.tally.missed + Skipped(next, done, PLANNING_PERIOD)))
  }

  function PlanPeriod(cfg: Config, s: Planning, c: PlanCycle): Planned {
    var bad := Judge(cfg, c.measured, c.checked);
    if bad.Some? then Planned(Fault(bad.value), s, None)
    else if !c.boxes.target then Planned(Fault(InternalError), s, None)
    else
      var t := Solved(s, c.solve.result);
      if c.solve.stopped then Planned(Stopped, t, None)
      else if c.solve.result == 0 then
        var u := t.(generation := s.generation + 1);
        if !c.boxes.plan then Planned(Fault(InternalError), u, None)
        else Close(u, c, Some(Plan(u.generation, c.measured.received, c.solve.knots)))
      else Close(t, c, None)
  }

  function Close(s: Planning, c: PlanCycle, plan: Option<Plan>): Planned {
    Planned(if c.boxes.status then Running else Fault(InternalError), Advanced(s, c.solve.done), plan)
  }

  class Planner {
    const config: Config
    var next: int
    var generation: nat
    var tally: Tally

    constructor (config: Config, now: int)
      ensures this.config == config && Value() == Planning(now, 0, Tally(0, 0, 0))
    {
      this.config := config;
      next, generation, tally := now, 0, Tally(0, 0, 0);
    }

    function Value(): Planning
      reads this
    {
      Planning(next, generation, tally)
    }

    /** One pass through the worker's loop. */
    method Pass(c: PlanCycle) returns (verdict: Verdict, plan: Option<Plan>)
      modifies this
      ensures Planned(verdict, Value(), plan) == PlanPeriod(config, old(Value()), c)
    {
      plan := None;
      var bad := Judge(config, c.measured, c.checked);
      if bad.Some? { return Fault(bad.value), None; }
      if !c.boxes.target { return Fault(InternalError), None; }
      tally := tally.(solves := tally.solves + 1);
      if c.solve.result != 0 { tally := tally.(failures := tally.failures + 1); }
      if c.solve.stopped { return Stopped, None; }
      if c.solve.result == 0 {
        generation := generation + 1;
        if !c.boxes.plan { return Fault(InternalError), None; }
        plan := Some(Plan(generation, c.measured.received, c.solve.knots));
      }
      next := next + PLANNING_PERIOD;
      if next <= c.solve.done {
        var missed := (c.solve.done - next) / PLANNING_PERIOD + 1;
        tally := tally.(missed := tally.missed + missed);
        next := next + missed * PLANNING_PERIOD;
      }
      verdict := if c.boxes.status then Running else Fault(InternalError);
    }

    /** Pass after pass, with a wait in between, until the worker ends or the cycles do. */
    method Work(cycles: seq<PlanCycle>, start: int) returns (trace: PlanTrace)
      requires Value() == Planning(start, 0, Tally(0, 0, 0))
      modifies this
      ensures trace == PlanRun(config, start, cycles)
    {
      trace := PlanTrace(Running, Value(), [], start);
      hide PlanPeriod;
      for i: nat := 0 to |cycles|
        invariant trace == PlanRun(config, start, cycles[..i])
        invariant trace.verdict.Running? ==> trace.state == Value()
      {
        assert cycles[..i + 1][..i] == cycles[..i] && cycles[..i + 1][i] == cycles[i];
        if trace.verdict.Running? {
          var verdict, plan := Pass(cycles[i]);
          var finished := cycles[i].solve.done;
          if verdict.Running? {
            var waited := AwaitSlot(next, cycles[i].wait);
            verdict := Woken(waited);
            if waited.Reached? { finished := waited.now; }
          }
          trace := PlanTrace(verdict, Value(), if plan.Some? then trace.plans + [plan.value] else trace.plans, finished);
        }
      }
      assert cycles[..|cycles|] == cycles;
    }
  }

  // Whole runs

  datatype PlanTrace = PlanTrace(verdict: Verdict, state: Planning, plans: seq<Plan>, finished: int)

  function PlanAfter(cfg: Config, p: PlanTrace, c: PlanCycle): PlanTrace {
    if !p.verdict.Running? then p
    else
      var o := PlanPeriod(cfg, p.state, c);
      var waited := WaitUntil(o.state.next, c.wait);
      PlanTrace(if o.verdict.Running? then Woken(waited) else o.verdict, o.state,
                if o.plan.Some? then p.plans + [o.plan.value] else p.plans,
                if o.verdict.Running? && waited.Reached? then waited.now else c.solve.done)
  }

  function PlanRun(cfg: Config, start: int, cycles: seq<PlanCycle>): PlanTrace {
    if cycles == [] then PlanTrace(Running, Planning(start, 0, Tally(0, 0, 0)), [], start)
    else PlanAfter(cfg, PlanRun(cfg, start, cycles[..|cycles| - 1]), cycles[|cycles| - 1])
  }

  /** The clock never goes back and a stop is never withdrawn. */
  predicate PlanCycleOk(p: PlanTrace, c: PlanCycle) {
    p.finished <= c.checked <= c.solve.done && Possible(c.wait, c.solve.done)
  }

  predicate PlanPaced(cfg: Config, start: int, cycles: seq<PlanCycle>) {
    cycles == [] ||
    (var before := cycles[..|cycles| - 1];
     PlanPaced(cfg, start, before) &&
     (PlanRun(cfg, start, before).verdict.Running? ==> PlanCycleOk(PlanRun(cfg, start, before), cycles[|cycles| - 1])))
  }

  /** After a solve the next slot lies ahead, by one period at most when the solve overran its own,
      and the slots counted as missed are those the overrun covers. */
  lemma NextSolveIsAhead(cfg: Config, s: Planning, c: PlanCycle)
    requires PlanPeriod(cfg, s, c).verdict.Running? && s.next <= c.solve.done
    ensures var t := PlanPeriod(cfg, s, c).state;
            && c.solve.done < t.next <= c.solve.done + PLANNING_PERIOD
            && (t.tally.missed - s.tally.missed) * PLANNING_PERIOD <= c.solve.done - s.next
  {
    NextSlotIsFirst(s.next + PLANNING_PERIOD, c.solve.done, PLANNING_PERIOD);
    var n := Skipped(s.next + PLANNING_PERIOD, c.solve.done, PLANNING_PERIOD);
    if n > 0 { SkippedExactly(s.next + PLANNING_PERIOD, c.solve.done, PLANNING_PERIOD, n - 1); }
  }

  lemma SolveReached(cfg: Config, start: int, cycles: seq<PlanCycle>)
    requires PlanPaced(cfg, start, cycles) && PlanRun(cfg, start, cycles).verdict.Running?
    ensures PlanRun(cfg, start, cycles).state.next <= PlanRun(cfg, start, cycles).finished
  {
    if cycles != [] {
      var p, c := PlanRun(cfg, start, cycles[..|cycles| - 1]), cycles[|cycles| - 1];
      ReachedInTime(PlanPeriod(cfg, p.state, c).state.next, c.wait, c.solve.done);
    }
  }

  /** In every run no solve starts before its slot, and after it the next slot lies ahead. */
  lemma SolvesKeepToTheirSlots(cfg: Config, start: int, cycles: seq<PlanCycle>, c: PlanCycle)
    requires PlanPaced(cfg, start, cycles + [c]) && PlanRun(cfg, start, cycles).verdict.Running?
    ensures var s := PlanRun(cfg, start, cycles).state;
            && s.next <= c.checked
            && (PlanPeriod(cfg, s, c).verdict.Running? ==>
                  c.solve.done < PlanPeriod(cfg, s, c).state.next <= c.solve.done + PLANNING_PERIOD)
  {
    var all := cycles + [c];
    assert all[..|all| - 1] == cycles && all[|all| - 1] == c;
    SolveReached(cfg, start, cycles);
    hide PlanPeriod, Possible;
    if PlanPeriod(cfg, PlanRun(cfg, start, cycles).state, c).verdict.Running? {
      NextSolveIsAhead(cfg, PlanRun(cfg, start, cycles).state, c);
    }
  }

  /** Published plans are numbered from one without gaps, which is what the output worker's test for
      a new plan relies on. */
  lemma {:induction false} PlansAreNumbered(cfg: Config, start: int, cycles: seq<PlanCycle>)
    ensures var t := PlanRun(cfg, start, cycles);
            forall i: nat :: i < |t.plans| ==> t.plans[i].generation == i + 1
    ensures var t := PlanRun(cfg, start, cycles); t.verdict.Running? ==> t.state.generation == |t.plans|
  {
    if cycles != [] { PlansAreNumbered(cfg, start, cycles[..|cycles| - 1]); }
  }

  /** While the worker runs, every period is one solve and every solve but the failed ones published
      its plan; the grid is conserved as for commands. */
  lemma {:induction false} PlanningIsAccountedFor(cfg: Config, start: int, cycles: seq<PlanCycle>)
    requires PlanRun(cfg, start, cycles).verdict.Running?
    ensures var t := PlanRun(cfg, start, cycles);
            t.state.tally.solves == |cycles|
            && |t.plans| + t.state.tally.failures == |cycles|
            && t.state.next == start + PLANNING_PERIOD * (|cycles| + t.state.tally.missed)
  {
    if cycles != [] { PlanningIsAccountedFor(cfg, start, cycles[..|cycles| - 1]); }
  }

  /** A plan is dated by the feedback it was solved from, which was valid and recent then. */
  lemma PlansAreDatedByFeedback(cfg: Config, s: Planning, c: PlanCycle)
    requires PlanPeriod(cfg, s, c).plan.Some?
    ensures var p := PlanPeriod(cfg, s, c).plan.value;
            p.origin == c.measured.received && 0 <= c.checked - p.origin <= cfg.timeouts.state
            && p.generation == s.generation + 1 && c.measured.connected && JointsOk(cfg, c.measured)
  {
  }
}
