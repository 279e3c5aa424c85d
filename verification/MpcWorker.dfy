/** The two workers of a session as objects, updated in place one period at a time. */
module MpcWorker {
  import opened MpcCubic
  import opened MpcSampling
  import opened MpcModel
  import opened MpcWait
  import opened Wrappers
  import MpcTheorems

  /** What a square root is: the non-negative number whose square is given. */
  ghost predicate IsSquareRoot(f: real -> real) {
    forall x: real :: x >= 0.0 ==> f(x) >= 0.0 && f(x) * f(x) == x
  }

  lemma RootIsUnique(x: real, y: real)
    requires x >= 0.0 && y >= 0.0 && x * x == y * y
    ensures x == y
  {
    if x < y { StrictSquares(x, y); }
    if y < x { StrictSquares(y, x); }
  }

  lemma StrictSquares(x: real, y: real)
    requires 0.0 <= x < y
    ensures x * x < y * y
  {
    ScaledBy(x, x, y);
    PositiveProduct(y, y - x, y * (y - x));
  }

  /** Which root is meant does not matter to the check. */
  lemma TrueRootDecides(k: Cubic, dt: real, l: Limits, root: real)
    requires IsRoot(k, root)
    ensures Within(k, dt, l, root) <==> Checked(k, dt, l)
  {
    if Checked(k, dt, l) {
      var other :| IsRoot(k, other) && Within(k, dt, l, other);
      RootsAgree(k, root, other);
      hide Discriminant, EndsOk, AccelerationWithin, VertexOk, StationaryOk, PositionOk;
      if Discriminant(k) < 0.0 && Abs(k.a) > NEGLIGIBLE { assert CriticalOk(k, l, root); }
    }
  }

  lemma RootsAgree(k: Cubic, root: real, other: real)
    requires IsRoot(k, root) && IsRoot(k, other)
    ensures Discriminant(k) >= 0.0 ==> root == other
  {
    hide Discriminant;
    if Discriminant(k) >= 0.0 { RootIsUnique(root, other); }
  }

  class OutputWorker {
    const config: Config
    const squareRoot: real -> real
    var next: int
    var active: Plan
    var latest: Plan
    var handoff: Handoff
    var previous: Option<Joints>
    var count: Counters

    constructor (config: Config, squareRoot: real -> real, now: int)
      requires IsSquareRoot(squareRoot)
      ensures Valid() && Value() == Initial(now) && this.config == config
    {
      this.config, this.squareRoot := config, squareRoot;
      next, active, latest := now, NO_PLAN, NO_PLAN;
      handoff, previous, count := NoHandoff, None, Counters(0, 0, 0);
    }

    ghost predicate Valid() { IsSquareRoot(squareRoot) }

    function Value(): State
      reads this
    {
      State(next, active, latest, handoff, previous, count)
    }

    /** One joint of one segment. */
    method WithinLimits(k: Cubic, dt: real, l: Limits) returns (ok: bool)
      requires Valid()
      ensures ok <==> Checked(k, dt, l)
    {
      var root := if Discriminant(k) >= 0.0 then squareRoot(Discriminant(k)) else 0.0;
      ok := Within(k, dt, l, root);
      TrueRootDecides(k, dt, l, root);
    }

    method CheckKnots(knots: Knots) returns (ok: bool)
      requires Valid()
      ensures ok <==> KnotsChecked(config, knots)
    {
      hide Checked, JointLimits, Segment;
      for i: nat := 0 to KNOTS - 1
        invariant forall h: nat, j: nat :: h < i && j < JOINTS ==>
          Checked(Segment(knots[j], DT, h), DT, JointLimits(config, j))
      {
        for j: nat := 0 to JOINTS
          invariant forall g: nat :: g < j ==> Checked(Segment(knots[g], DT, i), DT, JointLimits(config, g))
        {
          var within := WithinLimits(Segment(knots[j], DT, i), DT, JointLimits(config, j));
          if !within {
            assert !PlanChecked(knots[j], DT, JointLimits(config, j));
            return false;
          }
        }
      }
      return true;
    }

    method CheckCubics(cubics: Cubics) returns (ok: bool)
      requires Valid()
      ensures ok <==> CubicsChecked(config, cubics)
    {
      hide Checked, JointLimits;
      for j: nat := 0 to JOINTS
        invariant forall g: nat :: g < j ==> Checked(cubics[g], DT, JointLimits(config, g))
      {
        var within := WithinLimits(cubics[j], DT, JointLimits(config, j));
        if !within { return false; }
      }
      return true;
    }

    method MakeTransition(c: Cycle) returns (cubics: Cubics)
      ensures cubics == Transitions(Value(), c)
    {
      hide RefAt, Bridge, Transition;
      var built: seq<Cubic> := [];
      for j: nat := 0 to JOINTS
        invariant |built| == j && forall g: nat :: g < j ==> built[g] == Transition(Value(), c, g)
      {
        built := built + [Transition(Value(), c, j)];
      }
      cubics := built;
    }

    method SampleAt(t: int) returns (reference: Joints)
      ensures reference == References(Value(), t)
    {
      hide RefAt;
      var built: seq<Point> := [];
      for j: nat := 0 to JOINTS
        invariant |built| == j && forall g: nat :: g < j ==> built[g] == RefAt(Value(), g, t)
      {
        built := built + [RefAt(Value(), j, t)];
      }
      reference := built;
    }

    /** The command for a reference, unless some joint is too far from where it was measured. */
    method MakeCommand(reference: Joints, m: Measurement) returns (command: Option<Command>)
      ensures command == if Tracks(config, reference, m) then Some(CommandFor(config, Value(), reference, m)) else None
    {
      hide Ceiling, Needed, JointLimits, CeilingAt;
      var q: seq<real>, ceiling: seq<real> := [], [];
      for j: nat := 0 to JOINTS
        invariant |q| == |ceiling| == j
        invariant forall g: nat :: g < j ==> Abs(reference[g].q - m.joints[g].q) <= config.tracking
        invariant forall g: nat :: g < j ==> q[g] == reference[g].q
        invariant forall g: nat :: g < j ==> ceiling[g] == CeilingAt(config, Value(), reference, m, g)
      {
        if Abs(reference[j].q - m.joints[j].q) > config.tracking { return None; }
        q := q + [reference[j].q];
        ceiling := ceiling + [CeilingAt(config, Value(), reference, m, j)];
      }
      assert Tracks(config, reference, m);
      assert q == CommandFor(config, Value(), reference, m).q;
      assert ceiling == CommandFor(config, Value(), reference, m).ceiling;
      command := Some(Command(q, ceiling, config.current));
    }

    /** Switch to the latest plan if it is a new one and usable. */
    method AdoptLatest(c: Cycle) returns (fault: Option<Reason>)
      requires Valid()
      modifies this
      ensures fault == PlanGate(config, old(Value()), c)
      ensures Value() == if fault == None then Adopt(old(Value()), c) else old(Value())
    {
      hide KnotsChecked, CubicsChecked, Transition;
      if active.generation != 0 && c.at.checked - active.origin > config.timeouts.plan
          && latest.generation == active.generation {
        return Some(StalePlan);
      }
      if latest.generation != active.generation {
        if c.at.checked - latest.origin > config.timeouts.plan { return Some(StalePlan); }
        var knotsOk := CheckKnots(latest.knots);
        if !knotsOk { return Some(InvalidTrajectory); }
        var transition := MakeTransition(c);
        var bridgeOk := CheckCubics(transition);
        if !bridgeOk { return Some(InvalidTrajectory); }
        active := latest;
        handoff := Handoff(c.at.now, transition);
        count := count.(switches := count.switches + 1);
      }
      return None;
    }

    /** The end of a period: the lateness gate, the next slot, the status. */
    method CloseSlot(c: Cycle) returns (verdict: Verdict)
      modifies this
      ensures forall sent :: Outcome(verdict, Value(), sent) == Finish(config, old(Value()), c, sent)
    {
      if c.at.done - next > config.timeouts.lateness { return Fault(OutputDeadline); }
      next := next + OUTPUT_PERIOD;
      if next <= c.at.done {
        var missed := (c.at.done - next) / OUTPUT_PERIOD + 1;
        count := count.(missed := count.missed + missed);
        next := next + missed * OUTPUT_PERIOD;
      }
      return if c.published then Running else Fault(InternalError);
    }

    method Send(c: Cycle) returns (verdict: Verdict, sent: Option<Sent>)
      modifies this
      ensures Outcome(verdict, Value(), sent) == Execute(config, old(Value()), c)
    {
      hide References, Tracks, CommandFor, CatchUp;
      var reference := SampleAt(c.at.now);
      var command := MakeCommand(reference, c.measured);
      sent := None;
      if command == None { return Fault(TrackingError), None; }
      if c.at.submit - next > config.timeouts.lateness { return Fault(OutputDeadline), None; }
      if c.stopped { return Stopped, None; }
      sent := Some(Sent(c.at, next, c.target, active.origin, c.measured, reference, command.value));
      previous := Some(reference);
      count := count.(outputs := count.outputs + 1);
      verdict := CloseSlot(c);
    }

    /** One pass through the worker's loop. */
    method Pass(c: Cycle) returns (verdict: Verdict, sent: Option<Sent>)
      requires Valid()
      modifies this
      ensures Outcome(verdict, Value(), sent) == Period(config, old(Value()), c)
    {
      hide PlanGate, Adopt, Execute, Finish, Judge;
      sent := None;
      if c.read.Failed? { return Fault(InternalError), None; }
      if c.read.Fresh? { latest := c.read.plan; }
      if c.at.now - next > config.timeouts.lateness { return Fault(OutputDeadline), None; }
      if c.at.now - c.target > config.timeouts.target { return Fault(StaleTarget), None; }
      var bad := Judge(config, c.measured, c.at.checked);
      if bad.Some? { return Fault(bad.value), None; }
      var fault := AdoptLatest(c);
      if fault.Some? { return Fault(fault.value), None; }
      if active.generation != 0 {
        verdict, sent := Send(c);
      } else if c.at.checked - c.first > config.timeouts.plan {
        verdict := Fault(StalePlan);
      } else {
        verdict := CloseSlot(c);
      }
    }

    /** Pass after pass until the worker ends or the cycles do. */
    method Work(cycles: seq<Cycle>, start: int) returns (trace: MpcTheorems.Trace)
      requires Valid() && Value() == Initial(start)
      modifies this
      ensures trace == MpcTheorems.Run(config, start, cycles)
    {
      trace := MpcTheorems.Trace(Running, Value(), [], start);
      hide Period;
      for i: nat := 0 to |cycles|
        invariant trace == MpcTheorems.Run(config, start, cycles[..i])
        invariant trace.verdict.Running? ==> trace.state == Value()
      {
        assert cycles[..i + 1][..i] == cycles[..i] && cycles[..i + 1][i] == cycles[i];
        if trace.verdict.Running? {
          var verdict, sent := Pass(cycles[i]);
          var finished := cycles[i].at.done;
          if verdict.Running? {
            var waited := AwaitSlot(next, cycles[i].wait);
            verdict := Woken(waited);
            if waited.Reached? { finished := waited.now; }
          }
          trace := MpcTheorems.Trace(verdict, Value(), if sent.Some? then trace.log + [sent.value] else trace.log,
                                     finished);
        }
      }
      assert cycles[..|cycles|] == cycles;
    }
  }
}
