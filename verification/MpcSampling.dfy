/** Sampling a plan's knots: cubic Hermite interpolation, and how far a sampled reference can move. */
module MpcSampling {
  import opened MpcCubic

  /** When the i-th knot is due, since the plan's origin. */
  function Due(i: int, dt: real): real { i as real * dt }

  function IndexAt(t: real, dt: real, n: nat): (i: int)
    requires dt > 0.0 && n > 0 && t >= 0.0
    ensures 0 <= i < n
  {
    Divided(0.0, t, dt);
    var f := (t / dt).Floor;
    if f < n - 1 then f else n - 1
  }

  /** The joint's reference at a time since the plan's origin. */
  function SampleKnots(knots: seq<Point>, dt: real, time: real): Point
    requires |knots| >= 2 && dt > 0.0
  {
    SlotBounds(dt, 0, |knots| - 1);
    var t := Clamp(time, 0.0, Due(|knots| - 1, dt));
    var i := IndexAt(t, dt, |knots| - 1);
    Sample(Hermite(knots[i], knots[i + 1], dt), dt, t - Due(i, dt))
  }

  lemma SlotBounds(dt: real, i: nat, n: nat)
    requires dt > 0.0 && i < n
    ensures 0.0 <= Due(i, dt) && Due(i + 1, dt) == Due(i, dt) + dt && Due(i + 1, dt) <= Due(n, dt)
  {
    ScaledBy(dt, 0.0, i as real);
    ScaledBy(dt, (i + 1) as real, n as real);
  }

  // Hermite interpolation meets both knots, in position and in velocity

  lemma SampleBefore(x: Point, y: Point, dt: real, time: real)
    requires dt > 0.0 && time <= 0.0
    ensures Sample(Hermite(x, y, dt), dt, time) == x
  {
    Divided(time, 0.0, dt);
    EndValues(Hermite(x, y, dt));
    Scaled(x.dq, dt);
  }

  lemma SampleAfter(x: Point, y: Point, dt: real, time: real)
    requires dt > 0.0 && time >= dt
    ensures Sample(Hermite(x, y, dt), dt, time) == y
  {
    var k := Hermite(x, y, dt);
    Divided(dt, time, dt);
    EndOfHermite(x, y, dt);
    Scaled(y.dq, dt);
    assert Clamp(time / dt, 0.0, 1.0) == 1.0;
    assert Sample(k, dt, time) == Point(Position(k, 1.0), Rate(k, 1.0) / dt);
  }

  lemma EndOfHermite(x: Point, y: Point, dt: real)
    ensures var k := Hermite(x, y, dt); Position(k, 1.0) == y.q && Rate(k, 1.0) == dt * y.dq
  {
    var k := Hermite(x, y, dt);
    EndValues(k);
    assert k.c == dt * x.dq && k.b == 3.0 * (y.q - x.q) - dt * (2.0 * x.dq + y.dq);
  }

  lemma Scaled(v: real, dt: real)
    requires dt > 0.0
    ensures dt * v / dt == v
  {
  }

  function Segment(knots: seq<Point>, dt: real, i: nat): Cubic
    requires i + 1 < |knots|
  {
    Hermite(knots[i], knots[i + 1], dt)
  }

  lemma QuotientOrder(t: real, dt: real, i: int)
    requires dt > 0.0
    ensures Due(i, dt) <= t ==> i as real <= t / dt
    ensures t <= Due(i, dt) ==> t / dt <= i as real
    ensures t / dt == i as real ==> t == Due(i, dt)
  {
    assert Due(i, dt) / dt == i as real;
    if Due(i, dt) <= t { Divided(Due(i, dt), t, dt); }
    if t <= Due(i, dt) { Divided(t, Due(i, dt), dt); }
    Quotient(t, dt);
  }

  lemma IndexOf(t: real, dt: real, n: nat, i: nat)
    requires dt > 0.0 && i < n && t >= 0.0 && Due(i, dt) <= t <= Due(i + 1, dt)
    ensures var j := IndexAt(t, dt, n); j == i || (j == i + 1 && t == Due(i + 1, dt))
  {
    hide Due;
    QuotientOrder(t, dt, i);
    QuotientOrder(t, dt, i + 1);
  }

  /** Within the i-th interval a plan is its i-th segment; at a knot two segments agree in
      position and in velocity. */
  lemma OnSegment(knots: seq<Point>, dt: real, i: nat, time: real)
    requires i + 1 < |knots| && dt > 0.0 && Due(i, dt) <= time <= Due(i + 1, dt)
    ensures SampleKnots(knots, dt, time) == Sample(Segment(knots, dt, i), dt, time - Due(i, dt))
  {
    hide Sample, Hermite, Due, IndexAt;
    var n := |knots| - 1;
    SlotBounds(dt, i, n);
    IndexOf(time, dt, n, i);
    var j := IndexAt(time, dt, n);
    if j == i + 1 {
      SampleBefore(knots[i + 1], knots[i + 2], dt, 0.0);
      SampleAfter(knots[i], knots[i + 1], dt, dt);
    }
  }

  /** The i-th knot is where the plan is after i intervals. */
  lemma PassesThroughKnots(knots: seq<Point>, dt: real, i: nat)
    requires i < |knots| && |knots| >= 2 && dt > 0.0
    ensures SampleKnots(knots, dt, Due(i, dt)) == knots[i]
  {
    hide Sample, Hermite, Due, SampleKnots;
    if i + 1 < |knots| {
      SlotBounds(dt, i, |knots| - 1);
      OnSegment(knots, dt, i, Due(i, dt));
      SampleBefore(knots[i], knots[i + 1], dt, 0.0);
    } else {
      SlotBounds(dt, i - 1, i);
      OnSegment(knots, dt, i - 1, Due(i, dt));
      SampleAfter(knots[i - 1], knots[i], dt, dt);
    }
  }

  // How far a reference can move

  /** The mean of the rate over an interval, which for a cubic is its slope there. */
  lemma MeanRate(k: Cubic, x: real, y: real)
    ensures 6.0 * Slope(k, x, y) == Rate(k, x) + 4.0 * Rate(k, 0.5 * (x + y)) + Rate(k, y)
  {
  }

  ghost predicate NoFasterThan(k: Cubic, bound: real) {
    forall u: real :: 0.0 <= u <= 1.0 ==> RateOk(k, bound, u)
  }

  /** In units of time: the rate is per normalized interval. */
  ghost predicate Keeps(k: Cubic, dt: real, speed: real) { NoFasterThan(k, speed * dt) }

  lemma BoundedSlope(k: Cubic, bound: real, x: real, y: real)
    requires NoFasterThan(k, bound) && 0.0 <= x <= 1.0 && 0.0 <= y <= 1.0
    ensures Abs(Slope(k, x, y)) <= bound
  {
    hide Slope, Rate;
    MeanRate(k, x, y);
    assert RateOk(k, bound, x) && RateOk(k, bound, y) && RateOk(k, bound, 0.5 * (x + y));
  }

  lemma Displacement(k: Cubic, bound: real, x: real, y: real)
    requires NoFasterThan(k, bound) && 0.0 <= x <= y <= 1.0
    ensures Abs(Position(k, y) - Position(k, x)) <= bound * (y - x)
  {
    hide Slope, Position;
    BoundedSlope(k, bound, x, y);
    PositionDifference(k, x, y);
    ProductBounded(Slope(k, x, y), y - x, bound, Position(k, y) - Position(k, x));
  }

  lemma ProductBounded(m: real, x: real, bound: real, product: real)
    requires Abs(m) <= bound && x >= 0.0 && product == x * m
    ensures Abs(product) <= bound * x
  {
    ScaledBy(x, m, bound);
    ScaledBy(x, -bound, m);
  }

  lemma SameFraction(speed: real, dt: real, s: real, t: real)
    requires dt > 0.0
    ensures speed * dt * (t / dt - s / dt) == speed * (t - s)
  {
    assert dt * (t / dt - s / dt) == t - s;
  }

  lemma SegmentMoves(k: Cubic, dt: real, speed: real, s: real, t: real)
    requires dt > 0.0 && Keeps(k, dt, speed) && 0.0 <= s <= t <= dt
    ensures Abs(Sample(k, dt, t).q - Sample(k, dt, s).q) <= speed * (t - s)
  {
    hide Position, Rate;
    Divided(0.0, s, dt);
    Divided(s, t, dt);
    Divided(t, dt, dt);
    assert 0.0 / dt == 0.0 && dt / dt == 1.0;
    Displacement(k, speed * dt, s / dt, t / dt);
    SameFraction(speed, dt, s, t);
  }

  ghost predicate PlanNoFasterThan(knots: seq<Point>, dt: real, speed: real) {
    forall i: nat :: i + 1 < |knots| ==> Keeps(Segment(knots, dt, i), dt, speed)
  }

  lemma {:induction false} PlanMovesBefore(knots: seq<Point>, dt: real, speed: real, s: real, t: real, j: nat)
    requires |knots| >= 2 && dt > 0.0 && PlanNoFasterThan(knots, dt, speed)
    requires 0.0 <= s <= t && j + 1 < |knots| && Due(j, dt) <= t <= Due(j + 1, dt)
    ensures Abs(SampleKnots(knots, dt, t).q - SampleKnots(knots, dt, s).q) <= speed * (t - s)
    decreases j
  {
    hide Due, SampleKnots, Sample, Segment;
    var from := if Due(j, dt) <= s then s else Due(j, dt);
    SlotBounds(dt, j, j + 1);
    OnSegment(knots, dt, j, t);
    OnSegment(knots, dt, j, from);
    SegmentMoves(Segment(knots, dt, j), dt, speed, from - Due(j, dt), t - Due(j, dt));
    if s < from {
      if j > 0 {
        SlotBounds(dt, j - 1, j);
        PlanMovesBefore(knots, dt, speed, s, from, j - 1);
        Joined(SampleKnots(knots, dt, s).q, SampleKnots(knots, dt, from).q, SampleKnots(knots, dt, t).q,
               speed, s, from, t);
      } else {
        assert Due(0, dt) == 0.0 by { FirstDue(dt); }
        assert false;
      }
    }
  }

  lemma FirstDue(dt: real)
    ensures Due(0, dt) == 0.0
  {
  }

  lemma Joined(p: real, q: real, r: real, speed: real, s: real, m: real, t: real)
    requires Abs(q - p) <= speed * (m - s) && Abs(r - q) <= speed * (t - m)
    ensures Abs(r - p) <= speed * (t - s)
  {
    assert speed * (m - s) + speed * (t - m) == speed * (t - s);
  }

  /** A plan whose segments keep a speed never covers more distance than that speed allows,
      however many knots lie between the two times. */
  lemma PlanMoves(knots: seq<Point>, dt: real, speed: real, s: real, t: real)
    requires |knots| >= 2 && dt > 0.0 && speed >= 0.0 && PlanNoFasterThan(knots, dt, speed) && s <= t
    ensures Abs(SampleKnots(knots, dt, t).q - SampleKnots(knots, dt, s).q) <= speed * (t - s)
  {
    hide Due, SampleKnots, IndexAt;
    var n := |knots| - 1;
    SlotBounds(dt, 0, n);
    SampleClamped(knots, dt, s);
    SampleClamped(knots, dt, t);
    var from, to := Clamp(s, 0.0, Due(n, dt)), Clamp(t, 0.0, Due(n, dt));
    IndexSpans(to, dt, n);
    PlanMovesBefore(knots, dt, speed, from, to, IndexAt(to, dt, n));
    ScaledBy(speed, to - from, t - s);
  }

  lemma SampleClamped(knots: seq<Point>, dt: real, t: real)
    requires |knots| >= 2 && dt > 0.0
    ensures SampleKnots(knots, dt, t) == SampleKnots(knots, dt, Clamp(t, 0.0, Due(|knots| - 1, dt)))
  {
    hide Due, Sample, IndexAt;
    SlotBounds(dt, 0, |knots| - 1);
  }

  lemma IndexSpans(t: real, dt: real, n: nat)
    requires dt > 0.0 && n > 0 && 0.0 <= t <= Due(n, dt)
    ensures var j := IndexAt(t, dt, n); Due(j, dt) <= t <= Due(j + 1, dt)
  {
    hide Due;
    var j := IndexAt(t, dt, n);
    QuotientOrder(t, dt, j);
    QuotientOrder(t, dt, j + 1);
  }

  // What the check of every segment gives the whole reference

  /** The segment passed the check, with the true square root of its discriminant. */
  ghost predicate Checked(k: Cubic, dt: real, l: Limits) {
    exists root: real :: IsRoot(k, root) && Within(k, dt, l, root)
  }

  function PositionMargin(): real { TOLERANCE + 4.0 * NEGLIGIBLE }
  function SpeedBound(l: Limits, dt: real): real
    requires dt > 0.0
  {
    l.velocity + TOLERANCE + 6.0 * NEGLIGIBLE / dt
  }

  predicate InLimits(l: Limits, q: real) { l.lower - PositionMargin() <= q <= l.upper + PositionMargin() }

  lemma CheckedPosition(k: Cubic, dt: real, l: Limits, time: real)
    requires dt > 0.0 && Checked(k, dt, l)
    ensures InLimits(l, Sample(k, dt, time).q)
  {
    hide Position, Rate, Within, Slack;
    var root :| IsRoot(k, root) && Within(k, dt, l, root);
    WithinBounds(k, dt, l, root, Clamp(time / dt, 0.0, 1.0));
  }

  lemma CheckedSpeed(k: Cubic, dt: real, l: Limits)
    requires dt > 0.0 && Checked(k, dt, l)
    ensures Keeps(k, dt, SpeedBound(l, dt))
  {
    hide Position, Rate, Within, Slack;
    var root :| IsRoot(k, root) && Within(k, dt, l, root);
    var bound := (l.velocity + TOLERANCE) * dt + 6.0 * NEGLIGIBLE;
    assert SpeedBound(l, dt) * dt == bound;
    forall u: real | 0.0 <= u <= 1.0 ensures RateOk(k, bound, u) {
      WithinBounds(k, dt, l, root, u);
    }
  }

  ghost predicate PlanChecked(knots: seq<Point>, dt: real, l: Limits) {
    forall i: nat :: i + 1 < |knots| ==> Checked(Segment(knots, dt, i), dt, l)
  }

  /** Every instant of a plan whose segments passed the check is inside the limits. */
  lemma PlanInLimits(knots: seq<Point>, dt: real, l: Limits, time: real)
    requires |knots| >= 2 && dt > 0.0 && PlanChecked(knots, dt, l)
    ensures InLimits(l, SampleKnots(knots, dt, time).q)
  {
    hide Sample, Due, IndexAt, Checked;
    SlotBounds(dt, 0, |knots| - 1);
    var t := Clamp(time, 0.0, Due(|knots| - 1, dt));
    var i := IndexAt(t, dt, |knots| - 1);
    assert Checked(Segment(knots, dt, i), dt, l);
    CheckedPosition(Segment(knots, dt, i), dt, l, t - Due(i, dt));
  }

  lemma CheckedPlanMoves(knots: seq<Point>, dt: real, l: Limits, s: real, t: real)
    requires |knots| >= 2 && dt > 0.0 && l.velocity >= 0.0 && PlanChecked(knots, dt, l) && s <= t
    ensures Abs(SampleKnots(knots, dt, t).q - SampleKnots(knots, dt, s).q) <= SpeedBound(l, dt) * (t - s)
  {
    hide Sample, Due, SampleKnots, Checked, Segment;
    forall i: nat | i + 1 < |knots| ensures Keeps(Segment(knots, dt, i), dt, SpeedBound(l, dt)) {
      CheckedSpeed(Segment(knots, dt, i), dt, l);
    }
    Divided(0.0, 6.0 * NEGLIGIBLE, dt);
    PlanMoves(knots, dt, SpeedBound(l, dt), s, t);
  }

  // A handoff: a bridge of one interval from what is being executed to the new plan

  /** `offset` is the new plan's age when the bridge starts. */
  function Bridge(anchor: Point, knots: seq<Point>, dt: real, offset: real): Cubic
    requires |knots| >= 2 && dt > 0.0
  {
    Hermite(anchor, SampleKnots(knots, dt, offset + dt), dt)
  }

  predicate Joins(k: Cubic, knots: seq<Point>, dt: real, offset: real)
    requires |knots| >= 2 && dt > 0.0
  {
    Sample(k, dt, dt) == SampleKnots(knots, dt, offset + dt)
  }

  /** The reference `t` after the handoff: the bridge for one interval, then the plan. */
  function Bridged(k: Cubic, knots: seq<Point>, dt: real, offset: real, t: real): Point
    requires |knots| >= 2 && dt > 0.0
  {
    if t <= dt then Sample(k, dt, t) else SampleKnots(knots, dt, offset + t)
  }

  /** A handoff starts at the reference being executed and joins the plan after one interval,
      in position and in velocity. */
  lemma HandoffIsSmooth(anchor: Point, knots: seq<Point>, dt: real, offset: real)
    requires |knots| >= 2 && dt > 0.0
    ensures var k := Bridge(anchor, knots, dt, offset);
            Bridged(k, knots, dt, offset, 0.0) == anchor && Joins(k, knots, dt, offset)
  {
    hide Sample, Hermite, SampleKnots;
    var end := SampleKnots(knots, dt, offset + dt);
    SampleBefore(anchor, end, dt, 0.0);
    SampleAfter(anchor, end, dt, dt);
  }

  lemma CheckedSegmentMoves(k: Cubic, dt: real, l: Limits, s: real, t: real)
    requires dt > 0.0 && Checked(k, dt, l) && 0.0 <= s <= t <= dt
    ensures Abs(Sample(k, dt, t).q - Sample(k, dt, s).q) <= SpeedBound(l, dt) * (t - s)
  {
    hide *;
    CheckedSpeed(k, dt, l);
    SegmentMoves(k, dt, SpeedBound(l, dt), s, t);
  }

  /** After a handoff the reference keeps the speed limit across the join as well. */
  lemma BridgedMoves(k: Cubic, knots: seq<Point>, dt: real, offset: real, l: Limits, s: real, t: real)
    requires |knots| >= 2 && dt > 0.0 && l.velocity >= 0.0 && 0.0 <= s <= t
    requires PlanChecked(knots, dt, l) && Checked(k, dt, l) && Joins(k, knots, dt, offset)
    ensures Abs(Bridged(k, knots, dt, offset, t).q - Bridged(k, knots, dt, offset, s).q)
         <= SpeedBound(l, dt) * (t - s)
  {
    hide Sample, SampleKnots, Hermite, Checked, PlanChecked, SpeedBound;
    if t <= dt {
      CheckedSegmentMoves(k, dt, l, s, t);
    } else if dt < s {
      CheckedPlanMoves(knots, dt, l, offset + s, offset + t);
    } else {
      CheckedSegmentMoves(k, dt, l, s, dt);
      CheckedPlanMoves(knots, dt, l, offset + dt, offset + t);
      Joined(Sample(k, dt, s).q, SampleKnots(knots, dt, offset + dt).q, SampleKnots(knots, dt, offset + t).q,
             SpeedBound(l, dt), s, dt, t);
    }
  }

  lemma BridgedInLimits(k: Cubic, knots: seq<Point>, dt: real, offset: real, l: Limits, t: real)
    requires |knots| >= 2 && dt > 0.0 && PlanChecked(knots, dt, l) && Checked(k, dt, l)
    ensures InLimits(l, Bridged(k, knots, dt, offset, t).q)
  {
    if t <= dt {
      CheckedPosition(k, dt, l, t);
    } else {
      PlanInLimits(knots, dt, l, offset + t);
    }
  }
}
