/** One joint's cubic Hermite segment and the check that decides whether it may be executed.
    Numbers are reals: what is proved is about the algorithm, not its rounding. */
module MpcCubic {
  const TOLERANCE: real := 0.0000001
  /** Coefficients of this size or less count as zero. */
  const NEGLIGIBLE: real := 0.000000000000001

  /** Position of a joint along a segment, in normalized time: a u^3 + b u^2 + c u + d. */
  datatype Cubic = Cubic(a: real, b: real, c: real, d: real)
  datatype Point = Point(q: real, dq: real)
  datatype Limits = Limits(lower: real, upper: real, velocity: real, acceleration: real)

  function Abs(x: real): real { if x < 0.0 then -x else x }
  function Max(x: real, y: real): real { if x < y then y else x }
  function Min(x: real, y: real): real { if x < y then x else y }
  function Clamp(x: real, low: real, high: real): real { Max(low, Min(x, high)) }

  function Position(k: Cubic, u: real): real { ((k.a * u + k.b) * u + k.c) * u + k.d }
  /** Velocity in units of normalized time; the joint's is this over dt. */
  function Rate(k: Cubic, u: real): real { (3.0 * k.a * u + 2.0 * k.b) * u + k.c }

  function Hermite(x: Point, y: Point, dt: real): Cubic {
    var delta := y.q - x.q;
    Cubic(-2.0 * delta + dt * (x.dq + y.dq), 3.0 * delta - dt * (2.0 * x.dq + y.dq), dt * x.dq, x.q)
  }

  function Sample(k: Cubic, dt: real, time: real): Point
    requires dt > 0.0
  {
    var u := Clamp(time / dt, 0.0, 1.0);
    Point(Position(k, u), Rate(k, u) / dt)
  }

  predicate PositionOk(k: Cubic, l: Limits, u: real) {
    l.lower - TOLERANCE <= Position(k, u) <= l.upper + TOLERANCE
  }

  predicate VelocityOk(k: Cubic, dt: real, l: Limits, u: real)
    requires dt > 0.0
  {
    Abs(Rate(k, u) / dt) <= l.velocity + TOLERANCE
  }

  /** The second derivative is linear in u: 6 a u + 2 b. */
  predicate AccelerationOk(k: Cubic, dt: real, l: Limits, u: real)
    requires dt > 0.0
  {
    Abs(6.0 * k.a * u + 2.0 * k.b) / (dt * dt) <= l.acceleration + TOLERANCE
  }

  predicate Interior(u: real) { 0.0 < u < 1.0 }

  function Discriminant(k: Cubic): real { k.b * k.b - 3.0 * k.a * k.c }

  /** `root` is what the square root returns for the discriminant. */
  predicate IsRoot(k: Cubic, root: real) { Discriminant(k) >= 0.0 ==> root >= 0.0 && root * root == Discriminant(k) }

  predicate EndsOk(k: Cubic, dt: real, l: Limits)
    requires dt > 0.0
  {
    PositionOk(k, l, 0.0) && PositionOk(k, l, 1.0) && VelocityOk(k, dt, l, 0.0) && VelocityOk(k, dt, l, 1.0)
  }

  predicate AccelerationWithin(k: Cubic, dt: real, l: Limits)
    requires dt > 0.0
  {
    Max(Abs(2.0 * k.b), Abs(6.0 * k.a + 2.0 * k.b)) / (dt * dt) <= l.acceleration + TOLERANCE
  }

  /** The velocity's extremum, where the acceleration is zero. */
  predicate VertexOk(k: Cubic, dt: real, l: Limits)
    requires dt > 0.0 && k.a != 0.0
  {
    var u := -k.b / (3.0 * k.a);
    Interior(u) ==> VelocityOk(k, dt, l, u)
  }

  /** The position's extrema, where the velocity is zero. */
  predicate CriticalOk(k: Cubic, l: Limits, root: real)
    requires k.a != 0.0
  {
    Discriminant(k) >= 0.0 ==>
      var u1, u2 := (-k.b - root) / (3.0 * k.a), (-k.b + root) / (3.0 * k.a);
      (Interior(u1) ==> PositionOk(k, l, u1)) && (Interior(u2) ==> PositionOk(k, l, u2))
  }

  predicate StationaryOk(k: Cubic, l: Limits)
    requires k.b != 0.0
  {
    var u := -k.c / (2.0 * k.b);
    Interior(u) ==> PositionOk(k, l, u)
  }

  predicate Within(k: Cubic, dt: real, l: Limits, root: real) {
    && dt > 0.0
    && EndsOk(k, dt, l)
    && AccelerationWithin(k, dt, l)
    && (if Abs(k.a) > NEGLIGIBLE then VertexOk(k, dt, l) && CriticalOk(k, l, root)
        else if Abs(k.b) > NEGLIGIBLE then StationaryOk(k, l)
        else true)
  }

  // Differences

  function Slope(k: Cubic, x: real, y: real): real {
    k.a * (x * x + x * y + y * y) + k.b * (x + y) + k.c
  }

  lemma PositionDifference(k: Cubic, x: real, y: real)
    ensures Position(k, y) - Position(k, x) == (y - x) * Slope(k, x, y)
  {
  }

  /** The slope between two points, with the critical points r1 and r2 factored out. */
  lemma SlopeFactored(k: Cubic, r1: real, r2: real, x: real, y: real)
    requires k.b == -1.5 * k.a * (r1 + r2) && k.c == 3.0 * k.a * (r1 * r2)
    ensures var s, t, w := x - r1, y - r1, r2 - r1;
            Slope(k, x, y) == k.a * (s * s + s * t + t * t - 1.5 * w * (s + t))
  {
  }

  // Signs of the factored slope on the three pieces

  lemma OutsideSign(s: real, t: real, w: real)
    requires s <= 0.0 && t <= 0.0 && w >= 0.0
    ensures s * s + s * t + t * t - 1.5 * w * (s + t) >= 0.0
  {
    assert s * t >= 0.0 && s * s >= 0.0 && t * t >= 0.0;
    assert w * (s + t) <= 0.0;
  }

  lemma BeyondSign(s: real, t: real, w: real)
    requires s >= w >= 0.0 && t >= w
    ensures s * s + s * t + t * t - 1.5 * w * (s + t) >= 0.0
  {
    assert s * s >= w * s && t * t >= w * t;
    assert s * t >= w * s && s * t >= w * t;
  }

  lemma BetweenSign(s: real, t: real, w: real)
    requires 0.0 <= s <= w && 0.0 <= t <= w
    ensures s * s + s * t + t * t - 1.5 * w * (s + t) <= 0.0
  {
    ScaledBy(s, s, w);
    ScaledBy(s, t, w);
    ScaledBy(t, s, w);
    ScaledBy(t, t, w);
    var ss, st, tt, ws, wt := s * s, s * t, t * t, s * w, t * w;
    assert ss <= ws && st <= ws && st <= wt && tt <= wt;
    assert 1.5 * w * (s + t) == 1.5 * ws + 1.5 * wt;
  }

  lemma ScaledBy(factor: real, x: real, y: real)
    requires factor >= 0.0 && x <= y
    ensures factor * x <= factor * y && x * factor <= y * factor
  {
  }

  // Monotone pieces

  predicate Ordered(x: real, y: real, z: real) { x <= y <= z || z <= y <= x }

  predicate CriticalAt(k: Cubic, r1: real, r2: real) {
    r1 <= r2 && k.b == -1.5 * k.a * (r1 + r2) && k.c == 3.0 * k.a * (r1 * r2)
  }

  predicate SamePiece(r1: real, r2: real, x: real, y: real) {
    (x <= r1 && y <= r1) || (r1 <= x <= r2 && r1 <= y <= r2) || (r2 <= x && r2 <= y)
  }

  /** On one piece the factored slope has one sign: that of a outside, the other between. */
  lemma SlopeSign(k: Cubic, r1: real, r2: real, x: real, y: real)
    requires CriticalAt(k, r1, r2) && SamePiece(r1, r2, x, y)
    ensures (r1 <= x <= r2 && r1 <= y <= r2) ==> k.a * Slope(k, x, y) <= 0.0
    ensures (x <= r1 && y <= r1) || (r2 <= x && r2 <= y) ==> k.a * Slope(k, x, y) >= 0.0
  {
    var s, t, w := x - r1, y - r1, r2 - r1;
    var f := s * s + s * t + t * t - 1.5 * w * (s + t);
    SlopeFactored(k, r1, r2, x, y);
    assert k.a * Slope(k, x, y) == (k.a * k.a) * f;
    if r1 <= x <= r2 && r1 <= y <= r2 { BetweenSign(s, t, w); }
    if x <= r1 && y <= r1 { OutsideSign(s, t, w); }
    if r2 <= x && r2 <= y { BeyondSign(s, t, w); }
    SignTimesSquare(k.a, f);
  }

  lemma SignTimesSquare(a: real, f: real)
    ensures f >= 0.0 ==> (a * a) * f >= 0.0
    ensures f <= 0.0 ==> (a * a) * f <= 0.0
  {
    assert a * a >= 0.0;
  }

  /** On one piece the position moves one way: with the sign of a outside, against it between. */
  lemma Moves(k: Cubic, r1: real, r2: real, x: real, y: real)
    requires CriticalAt(k, r1, r2) && SamePiece(r1, r2, x, y) && x <= y
    ensures r1 <= x && y <= r2 ==> k.a * (Position(k, y) - Position(k, x)) <= 0.0
    ensures y <= r1 || r2 <= x ==> k.a * (Position(k, y) - Position(k, x)) >= 0.0
  {
    hide Position, Slope;
    PositionDifference(k, x, y);
    SlopeSign(k, r1, r2, x, y);
    ProductSign(k.a, Slope(k, x, y), y - x, Position(k, y) - Position(k, x));
  }

  lemma ProductSign(a: real, m: real, x: real, d: real)
    requires x >= 0.0 && d == x * m
    ensures a * m >= 0.0 ==> a * d >= 0.0
    ensures a * m <= 0.0 ==> a * d <= 0.0
  {
    assert a * d == x * (a * m);
  }

  lemma OrderedBySigns(a: real, p: real, q: real, r: real)
    requires a != 0.0
    requires (a * (q - p) >= 0.0 && a * (r - q) >= 0.0) || (a * (q - p) <= 0.0 && a * (r - q) <= 0.0)
    ensures Ordered(p, q, r)
  {
  }

  lemma PieceMonotone(k: Cubic, r1: real, r2: real, x: real, u: real, y: real)
    requires k.a != 0.0 && CriticalAt(k, r1, r2)
    requires x <= u <= y && SamePiece(r1, r2, x, y)
    ensures Ordered(Position(k, x), Position(k, u), Position(k, y))
  {
    hide Position, Rate, Parabola;
    Moves(k, r1, r2, x, u);
    Moves(k, r1, r2, u, y);
    OrderedBySigns(k.a, Position(k, x), Position(k, u), Position(k, y));
  }

  lemma SquareIsNonNegative(x: real)
    ensures x * x >= 0.0
  {
    if x < 0.0 { ScaledBy(-x, 0.0, -x); }
  }

  lemma PositiveProduct(x: real, y: real, product: real)
    requires x > 0.0 && y > 0.0 && product == x * y
    ensures product > 0.0
  {
  }

  lemma SumOfSquares(p: real, q: real, b: real)
    ensures 3.0 * (p * p + p * q + q * q) + 3.0 * b * (p + q) + b * b >= 0.0
  {
    var d, z := p - q, 1.5 * (p + q) + b;
    SquareIsNonNegative(d);
    SquareIsNonNegative(z);
    CompletedSquares(p, q, b);
  }

  lemma CompletedSquares(p: real, q: real, b: real)
    ensures 3.0 * (p * p + p * q + q * q) + 3.0 * b * (p + q) + b * b
         == 0.75 * ((p - q) * (p - q)) + (1.5 * (p + q) + b) * (1.5 * (p + q) + b)
  {
  }

  lemma SlopeExpanded(k: Cubic, x: real, y: real)
    ensures var p, q := k.a * x, k.a * y;
            k.a * Slope(k, x, y) == (p * p + p * q + q * q) + k.b * (p + q) + k.a * k.c
  {
  }

  /** Without critical points the position is monotone everywhere. */
  lemma NoCriticalPoints(k: Cubic, x: real, y: real)
    requires Discriminant(k) < 0.0
    ensures k.a * Slope(k, x, y) >= 0.0
  {
    hide Slope;
    SlopeExpanded(k, x, y);
    SumOfSquares(k.a * x, k.a * y, k.b);
  }

  /** In [low, high] at 0, at 1 and at the critical points inside: in there throughout. */
  lemma BoundedByCandidates(k: Cubic, r1: real, r2: real, low: real, high: real, u: real)
    requires k.a != 0.0 && CriticalAt(k, r1, r2) && 0.0 <= u <= 1.0
    requires low <= Position(k, 0.0) <= high && low <= Position(k, 1.0) <= high
    requires Interior(r1) ==> low <= Position(k, r1) <= high
    requires Interior(r2) ==> low <= Position(k, r2) <= high
    ensures low <= Position(k, u) <= high
  {
    if u <= r1 {
      PieceMonotone(k, r1, r2, 0.0, u, Min(r1, 1.0));
    } else if u <= r2 {
      PieceMonotone(k, r1, r2, Max(0.0, r1), u, Min(r2, 1.0));
    } else {
      PieceMonotone(k, r1, r2, Max(0.0, r2), u, 1.0);
    }
  }

  lemma CriticalPoints(k: Cubic, root: real)
    requires k.a != 0.0 && root * root == Discriminant(k)
    ensures var u1, u2 := (-k.b - root) / (3.0 * k.a), (-k.b + root) / (3.0 * k.a);
            k.b == -1.5 * k.a * (u1 + u2) && k.c == 3.0 * k.a * (u1 * u2)
  {
    var u1, u2 := (-k.b - root) / (3.0 * k.a), (-k.b + root) / (3.0 * k.a);
    assert u1 * (3.0 * k.a) == -k.b - root && u2 * (3.0 * k.a) == -k.b + root;
    assert (u1 + u2) * (3.0 * k.a) == -2.0 * k.b;
    assert (u1 * (3.0 * k.a)) * (u2 * (3.0 * k.a)) == k.b * k.b - root * root == 3.0 * (k.a * k.c);
    assert (u1 * (3.0 * k.a)) * (u2 * (3.0 * k.a)) == (3.0 * k.a) * (3.0 * k.a * (u1 * u2));
    CancelFactor(3.0 * k.a, 3.0 * k.a * (u1 * u2), k.c);
  }

  lemma CancelFactor(a: real, x: real, y: real)
    requires a != 0.0 && a * x == a * y
    ensures x == y
  {
    assert a * (x - y) == 0.0;
  }

  // Parabolas: the rate, and the position of a segment without a cubic term

  function Parabola(p: real, q: real, r: real, u: real): real { (p * u + q) * u + r }

  lemma ParabolaMoves(p: real, q: real, r: real, v: real, x: real, y: real)
    requires q == -2.0 * p * v && x <= y
    ensures y <= v ==> p * (Parabola(p, q, r, y) - Parabola(p, q, r, x)) <= 0.0
    ensures v <= x ==> p * (Parabola(p, q, r, y) - Parabola(p, q, r, x)) >= 0.0
  {
    var m := p * (x + y - 2.0 * v);
    assert Parabola(p, q, r, y) - Parabola(p, q, r, x) == (y - x) * m;
    assert p * m == (p * p) * (x + y - 2.0 * v);
    SignTimesSquare(p, x + y - 2.0 * v);
    ProductSign(p, m, y - x, Parabola(p, q, r, y) - Parabola(p, q, r, x));
  }

  lemma ParabolaMonotone(p: real, q: real, r: real, v: real, x: real, u: real, y: real)
    requires p != 0.0 && q == -2.0 * p * v && x <= u <= y && (y <= v || v <= x)
    ensures Ordered(Parabola(p, q, r, x), Parabola(p, q, r, u), Parabola(p, q, r, y))
  {
    ParabolaMoves(p, q, r, v, x, u);
    ParabolaMoves(p, q, r, v, u, y);
    OrderedBySigns(p, Parabola(p, q, r, x), Parabola(p, q, r, u), Parabola(p, q, r, y));
  }

  lemma BoundedByVertex(p: real, q: real, r: real, v: real, low: real, high: real, u: real)
    requires p != 0.0 && q == -2.0 * p * v && 0.0 <= u <= 1.0
    requires low <= Parabola(p, q, r, 0.0) <= high && low <= Parabola(p, q, r, 1.0) <= high
    requires Interior(v) ==> low <= Parabola(p, q, r, v) <= high
    ensures low <= Parabola(p, q, r, u) <= high
  {
    if u <= v {
      ParabolaMonotone(p, q, r, v, 0.0, u, Min(v, 1.0));
    } else {
      ParabolaMonotone(p, q, r, v, Max(v, 0.0), u, 1.0);
    }
  }

  /** Products are passed along with their factors, so that a caller's product is the one meant. */
  lemma ScaledTo(factor: real, x: real, y: real, p: real, q: real)
    requires factor >= 0.0 && x <= y && p == factor * x && q == factor * y
    ensures p <= q
  {
    assert q - p == factor * (y - x);
  }

  /** A coefficient scaled into the unit interval moves towards zero. */
  lemma Shrinks(q: real, u: real, product: real)
    requires 0.0 <= u <= 1.0 && product == q * u
    ensures q >= 0.0 ==> 0.0 <= product <= q
    ensures q <= 0.0 ==> q <= product <= 0.0
  {
    if q >= 0.0 {
      ScaledTo(q, u, 1.0, product, q);
      ScaledTo(q, 0.0, u, 0.0, product);
    }
    if q <= 0.0 {
      ScaledTo(-q, u, 1.0, -product, -q);
      ScaledTo(-q, 0.0, u, 0.0, -product);
    }
  }

  lemma BoundedByEnds(q: real, r: real, low: real, high: real, u: real, line: real)
    requires 0.0 <= u <= 1.0 && low <= r <= high && low <= q + r <= high && line == q * u + r
    ensures low <= line <= high
  {
    Shrinks(q, u, line - r);
  }

  lemma LargestAtAnEnd(q: real, r: real, u: real, line: real)
    requires 0.0 <= u <= 1.0 && line == q * u + r
    ensures Abs(line) <= Max(Abs(r), Abs(q + r))
  {
    var worst := Max(Abs(r), Abs(q + r));
    BoundedByEnds(q, r, -worst, worst, u, line);
  }

  // The check decides the limits

  lemma CriticalPieces(k: Cubic, root: real, u1: real, u2: real)
    requires k.a != 0.0 && root * root == Discriminant(k)
    requires u1 == (-k.b - root) / (3.0 * k.a) && u2 == (-k.b + root) / (3.0 * k.a)
    ensures if u1 <= u2 then CriticalAt(k, u1, u2) else CriticalAt(k, u2, u1)
  {
    CriticalPoints(k, root);
    assert u1 + u2 == u2 + u1 && u1 * u2 == u2 * u1;
  }

  lemma CriticalPosition(k: Cubic, root: real, low: real, high: real, u: real)
    requires k.a != 0.0 && root * root == Discriminant(k) && 0.0 <= u <= 1.0
    requires low <= Position(k, 0.0) <= high && low <= Position(k, 1.0) <= high
    requires var u1, u2 := (-k.b - root) / (3.0 * k.a), (-k.b + root) / (3.0 * k.a);
             (Interior(u1) ==> low <= Position(k, u1) <= high) && (Interior(u2) ==> low <= Position(k, u2) <= high)
    ensures low <= Position(k, u) <= high
  {
    hide Position, Discriminant, CriticalAt;
    var u1, u2 := (-k.b - root) / (3.0 * k.a), (-k.b + root) / (3.0 * k.a);
    CriticalPieces(k, root, u1, u2);
    if u1 <= u2 {
      BoundedByCandidates(k, u1, u2, low, high, u);
    } else {
      BoundedByCandidates(k, u2, u1, low, high, u);
    }
  }

  lemma CubicPosition(k: Cubic, dt: real, l: Limits, root: real, u: real)
    requires dt > 0.0 && EndsOk(k, dt, l) && k.a != 0.0 && CriticalOk(k, l, root)
    requires IsRoot(k, root) && 0.0 <= u <= 1.0
    ensures PositionOk(k, l, u)
  {
    hide Position, Discriminant, VelocityOk;
    if Discriminant(k) < 0.0 {
      MonotoneWithoutCriticalPoints(k, u);
    } else {
      CriticalPosition(k, root, l.lower - TOLERANCE, l.upper + TOLERANCE, u);
    }
  }

  lemma MonotoneWithoutCriticalPoints(k: Cubic, u: real)
    requires Discriminant(k) < 0.0 && 0.0 <= u <= 1.0
    ensures Ordered(Position(k, 0.0), Position(k, u), Position(k, 1.0))
  {
    hide Position;
    SquareIsNonNegative(k.b);
    RisesWithoutCriticalPoints(k, 0.0, u);
    RisesWithoutCriticalPoints(k, u, 1.0);
    OrderedBySigns(k.a, Position(k, 0.0), Position(k, u), Position(k, 1.0));
  }

  lemma RisesWithoutCriticalPoints(k: Cubic, x: real, y: real)
    requires Discriminant(k) < 0.0 && x <= y
    ensures k.a * (Position(k, y) - Position(k, x)) >= 0.0
  {
    hide Position, Slope;
    PositionDifference(k, x, y);
    NoCriticalPoints(k, x, y);
    ProductSign(k.a, Slope(k, x, y), y - x, Position(k, y) - Position(k, x));
  }

  predicate RateOk(k: Cubic, bound: real, u: real) { -bound <= Rate(k, u) <= bound }

  lemma RateBounds(k: Cubic, dt: real, l: Limits, u: real)
    requires dt > 0.0
    ensures VelocityOk(k, dt, l, u) <==> RateOk(k, (l.velocity + TOLERANCE) * dt, u)
  {
    QuotientBounded(Rate(k, u), dt, l.velocity + TOLERANCE);
  }

  lemma QuotientBounded(rate: real, dt: real, bound: real)
    requires dt > 0.0
    ensures Abs(rate / dt) <= bound <==> -(bound * dt) <= rate <= bound * dt
  {
    var v := rate / dt;
    assert v * dt == rate;
    if -bound <= v <= bound { ScaledBy(dt, v, bound); ScaledBy(dt, -bound, v); }
    if v > bound { PositiveProduct(v - bound, dt, (v - bound) * dt); }
    if v < -bound { PositiveProduct(-bound - v, dt, (-bound - v) * dt); }
  }

  lemma RateBetween(k: Cubic, v: real, bound: real, u: real)
    requires k.a != 0.0 && k.b == -3.0 * k.a * v && 0.0 <= u <= 1.0
    requires RateOk(k, bound, 0.0) && RateOk(k, bound, 1.0) && (Interior(v) ==> RateOk(k, bound, v))
    ensures RateOk(k, bound, u)
  {
    BoundedByVertex(3.0 * k.a, 2.0 * k.b, k.c, v, -bound, bound, u);
  }

  lemma VertexAt(a: real, b: real, v: real)
    requires a != 0.0 && v == -b / (3.0 * a)
    ensures b == -3.0 * a * v
  {
    Quotient(-b, 3.0 * a);
  }

  lemma CubicVelocity(k: Cubic, dt: real, l: Limits, u: real)
    requires dt > 0.0 && EndsOk(k, dt, l) && k.a != 0.0 && VertexOk(k, dt, l) && 0.0 <= u <= 1.0
    ensures VelocityOk(k, dt, l, u)
  {
    var v := -k.b / (3.0 * k.a);
    VertexAt(k.a, k.b, v);
    RateBounds(k, dt, l, 0.0);
    RateBounds(k, dt, l, 1.0);
    RateBounds(k, dt, l, v);
    RateBounds(k, dt, l, u);
    RateBetween(k, v, (l.velocity + TOLERANCE) * dt, u);
  }

  lemma Quotient(x: real, y: real)
    requires y != 0.0
    ensures (x / y) * y == x
  {
  }

  lemma AccelerationAtAnEnd(q: real, r: real, u: real, line: real, square: real, bound: real)
    requires 0.0 <= u <= 1.0 && square > 0.0 && line == q * u + r
    requires Max(Abs(r), Abs(q + r)) / square <= bound
    ensures Abs(line) / square <= bound
  {
    LargestAtAnEnd(q, r, u, line);
    Divided(Abs(line), Max(Abs(r), Abs(q + r)), square);
  }

  lemma AccelerationEverywhere(k: Cubic, dt: real, l: Limits, u: real)
    requires dt > 0.0 && AccelerationWithin(k, dt, l) && 0.0 <= u <= 1.0
    ensures AccelerationOk(k, dt, l, u)
  {
    var square, line := dt * dt, 6.0 * k.a * u + 2.0 * k.b;
    PositiveProduct(dt, dt, square);
    AccelerationAtAnEnd(6.0 * k.a, 2.0 * k.b, u, line, square, l.acceleration + TOLERANCE);
  }

  lemma Divided(x: real, y: real, divisor: real)
    requires x <= y && divisor > 0.0
    ensures x / divisor <= y / divisor
  {
    assert (y / divisor - x / divisor) * divisor == y - x;
  }

  // Segments with no cubic term, or one too small to be looked at

  lemma StationaryPoint(b: real, c: real, u: real)
    requires b != 0.0 && u == -c / (2.0 * b)
    ensures c == -2.0 * b * u
  {
    Quotient(-c, 2.0 * b);
  }

  lemma ParabolaPosition(b: real, c: real, d: real, low: real, high: real, u: real)
    requires b != 0.0 && 0.0 <= u <= 1.0
    requires low <= d <= high && low <= b + c + d <= high
    requires Interior(-c / (2.0 * b)) ==> low <= Parabola(b, c, d, -c / (2.0 * b)) <= high
    ensures low <= Parabola(b, c, d, u) <= high
  {
    var v := -c / (2.0 * b);
    StationaryPoint(b, c, v);
    BoundedByVertex(b, c, d, v, low, high, u);
  }

  lemma PositionExpanded(k: Cubic, u: real)
    ensures Position(k, u) == k.a * u * u * u + Parabola(k.b, k.c, k.d, u)
    ensures Parabola(k.b, k.c, k.d, u) == k.b * u * u + (k.c * u + k.d)
    ensures Rate(k, u) == 3.0 * (k.a * u * u) + (2.0 * k.b * u + k.c)
  {
  }

  lemma ShrinksTo(q: real, u: real, product: real, bound: real)
    requires 0.0 <= u <= 1.0 && Abs(q) <= bound && product == q * u
    ensures Abs(product) <= bound
  {
    Shrinks(q, u, product);
  }

  lemma PowersShrink(a: real, u: real)
    requires 0.0 <= u <= 1.0
    ensures Abs(a * u * u) <= Abs(a) && Abs(a * u * u * u) <= Abs(a)
  {
    ShrinksTo(a, u, a * u, Abs(a));
    ShrinksTo(a * u, u, a * u * u, Abs(a));
    ShrinksTo(a * u * u, u, a * u * u * u, Abs(a));
  }

  /** The cubic term moves a position by no more than its coefficient. */
  lemma CubicTerm(k: Cubic, u: real)
    requires 0.0 <= u <= 1.0
    ensures Abs(Position(k, u) - Parabola(k.b, k.c, k.d, u)) <= Abs(k.a)
    ensures Abs(Rate(k, u) - (2.0 * k.b * u + k.c)) <= 3.0 * Abs(k.a)
  {
    hide Position, Rate, Parabola;
    PowersShrink(k.a, u);
    PositionExpanded(k, u);
    Apart(Position(k, u), Parabola(k.b, k.c, k.d, u), k.a * u * u * u, Abs(k.a));
    Apart(Rate(k, u), 2.0 * k.b * u + k.c, 3.0 * (k.a * u * u), 3.0 * Abs(k.a));
  }

  lemma Apart(x: real, y: real, d: real, bound: real)
    requires x == d + y && Abs(d) <= bound
    ensures Abs(x - y) <= bound
  {
  }

  lemma QuadraticTerm(k: Cubic, u: real)
    requires 0.0 <= u <= 1.0
    ensures Abs(Parabola(k.b, k.c, k.d, u) - (k.c * u + k.d)) <= Abs(k.b)
  {
    hide Parabola;
    PowersShrink(k.b, u);
    PositionExpanded(k, u);
    Apart(Parabola(k.b, k.c, k.d, u), k.c * u + k.d, k.b * u * u, Abs(k.b));
  }

  lemma EndValues(k: Cubic)
    ensures Position(k, 0.0) == k.d && Position(k, 1.0) == k.a + k.b + k.c + k.d
    ensures Rate(k, 0.0) == k.c && Rate(k, 1.0) == 3.0 * k.a + 2.0 * k.b + k.c
  {
  }

  /** What a position may miss the limits by when coefficients count as zero. */
  function Slack(k: Cubic): real {
    if Abs(k.a) > NEGLIGIBLE then 0.0
    else if Abs(k.b) > NEGLIGIBLE then 2.0 * Abs(k.a)
    else 2.0 * (Abs(k.a) + Abs(k.b))
  }

  lemma NearParabola(k: Cubic, v: real, low: real, high: real, u: real)
    requires k.b != 0.0 && v == -k.c / (2.0 * k.b) && 0.0 <= u <= 1.0
    requires low <= Position(k, 0.0) <= high && low <= Position(k, 1.0) <= high
    requires Interior(v) ==> low <= Position(k, v) <= high
    ensures low - 2.0 * Abs(k.a) <= Position(k, u) <= high + 2.0 * Abs(k.a)
  {
    hide Position, Rate, Parabola;
    var a := Abs(k.a);
    assert Abs(Position(k, u) - Parabola(k.b, k.c, k.d, u)) <= a by { CubicTerm(k, u); }
    if Interior(v) {
      assert Abs(Position(k, v) - Parabola(k.b, k.c, k.d, v)) <= a by { CubicTerm(k, v); }
    }
    EndValues(k);
    ParabolaPosition(k.b, k.c, k.d, low - a, high + a, u);
  }

  lemma NearLine(k: Cubic, low: real, high: real, u: real)
    requires low <= Position(k, 0.0) <= high && low <= Position(k, 1.0) <= high && 0.0 <= u <= 1.0
    ensures var slack := 2.0 * (Abs(k.a) + Abs(k.b)); low - slack <= Position(k, u) <= high + slack
  {
    hide Position, Rate, Parabola;
    var a, b := Abs(k.a), Abs(k.b);
    CubicTerm(k, u);
    QuadraticTerm(k, u);
    EndValues(k);
    BoundedByEnds(k.c, k.d, low - a - b, high + a + b, u, k.c * u + k.d);
  }

  lemma FlatPosition(k: Cubic, dt: real, l: Limits, u: real)
    requires dt > 0.0 && EndsOk(k, dt, l) && 0.0 <= u <= 1.0
    requires Abs(k.b) > NEGLIGIBLE ==> StationaryOk(k, l)
    ensures var slack := 2.0 * (if Abs(k.b) > NEGLIGIBLE then Abs(k.a) else Abs(k.a) + Abs(k.b));
            l.lower - TOLERANCE - slack <= Position(k, u) <= l.upper + TOLERANCE + slack
  {
    var low, high := l.lower - TOLERANCE, l.upper + TOLERANCE;
    if Abs(k.b) > NEGLIGIBLE {
      NearParabola(k, -k.c / (2.0 * k.b), low, high, u);
    } else {
      NearLine(k, low, high, u);
    }
  }

  lemma FlatVelocity(k: Cubic, dt: real, l: Limits, u: real)
    requires dt > 0.0 && EndsOk(k, dt, l) && 0.0 <= u <= 1.0
    ensures Abs(Rate(k, u)) <= (l.velocity + TOLERANCE) * dt + 6.0 * Abs(k.a)
  {
    RateBounds(k, dt, l, 0.0);
    RateBounds(k, dt, l, 1.0);
    LineBetween(k, (l.velocity + TOLERANCE) * dt, u);
  }

  lemma LineBetween(k: Cubic, bound: real, u: real)
    requires RateOk(k, bound, 0.0) && RateOk(k, bound, 1.0) && 0.0 <= u <= 1.0
    ensures Abs(Rate(k, u)) <= bound + 6.0 * Abs(k.a)
  {
    hide Position, Rate, Parabola;
    var e, q := 3.0 * Abs(k.a), 2.0 * k.b;
    CubicTerm(k, u);
    EndValues(k);
    BoundedByEnds(q, k.c, -bound - e, bound + e, u, 2.0 * k.b * u + k.c);
  }

  // Main results

  /** Whatever passes the check stays inside the limits along the whole segment,
      but for what coefficients below the threshold can add. */
  lemma WithinBounds(k: Cubic, dt: real, l: Limits, root: real, u: real)
    requires Within(k, dt, l, root) && IsRoot(k, root) && 0.0 <= u <= 1.0
    ensures l.lower - TOLERANCE - Slack(k) <= Position(k, u) <= l.upper + TOLERANCE + Slack(k)
    ensures Slack(k) <= 4.0 * NEGLIGIBLE
    ensures Abs(Rate(k, u)) <= (l.velocity + TOLERANCE) * dt + 6.0 * NEGLIGIBLE
    ensures AccelerationOk(k, dt, l, u)
  {
    AccelerationEverywhere(k, dt, l, u);
    if Abs(k.a) > NEGLIGIBLE {
      CubicPosition(k, dt, l, root, u);
      CubicVelocity(k, dt, l, u);
      RateBounds(k, dt, l, u);
    } else {
      FlatPosition(k, dt, l, u);
      FlatVelocity(k, dt, l, u);
    }
  }

  predicate SoundAt(k: Cubic, dt: real, l: Limits, u: real)
    requires dt > 0.0
  {
    PositionOk(k, l, u) && VelocityOk(k, dt, l, u) && AccelerationOk(k, dt, l, u)
  }

  ghost predicate Sound(k: Cubic, dt: real, l: Limits)
    requires dt > 0.0
  {
    forall u: real :: 0.0 <= u <= 1.0 ==> SoundAt(k, dt, l, u)
  }

  predicate Distinct(x: real) { x == 0.0 || Abs(x) > NEGLIGIBLE }

  /** No coefficient is small enough to be taken for zero without being it. */
  predicate Representable(k: Cubic) { Distinct(k.a) && (k.a == 0.0 ==> Distinct(k.b)) }

  lemma SoundSegment(k: Cubic, dt: real, l: Limits, root: real, u: real)
    requires Within(k, dt, l, root) && IsRoot(k, root) && Representable(k) && 0.0 <= u <= 1.0
    ensures SoundAt(k, dt, l, u)
  {
    AccelerationEverywhere(k, dt, l, u);
    RateBounds(k, dt, l, u);
    if Abs(k.a) > NEGLIGIBLE {
      CubicPosition(k, dt, l, root, u);
      CubicVelocity(k, dt, l, u);
    } else {
      FlatPosition(k, dt, l, u);
      FlatVelocity(k, dt, l, u);
    }
  }

  lemma SoundPassesTheCheck(k: Cubic, dt: real, l: Limits, root: real)
    requires dt > 0.0 && Sound(k, dt, l)
    ensures Within(k, dt, l, root)
  {
    assert SoundAt(k, dt, l, 0.0) && SoundAt(k, dt, l, 1.0);
    if Abs(k.a) > NEGLIGIBLE {
      var v, u1, u2 := -k.b / (3.0 * k.a), (-k.b - root) / (3.0 * k.a), (-k.b + root) / (3.0 * k.a);
      assert Interior(v) ==> SoundAt(k, dt, l, v);
      assert Interior(u1) ==> SoundAt(k, dt, l, u1);
      assert Interior(u2) ==> SoundAt(k, dt, l, u2);
    } else if Abs(k.b) > NEGLIGIBLE {
      var v := -k.c / (2.0 * k.b);
      assert Interior(v) ==> SoundAt(k, dt, l, v);
    }
  }

  /** The check at a handful of points decides the limits on the whole segment. */
  lemma WithinIsExact(k: Cubic, dt: real, l: Limits, root: real)
    requires IsRoot(k, root) && Representable(k)
    ensures Within(k, dt, l, root) <==> dt > 0.0 && Sound(k, dt, l)
  {
    if dt > 0.0 && Sound(k, dt, l) {
      SoundPassesTheCheck(k, dt, l, root);
    }
    if Within(k, dt, l, root) {
      forall u: real | 0.0 <= u <= 1.0 ensures SoundAt(k, dt, l, u) {
        SoundSegment(k, dt, l, root, u);
      }
    }
  }

  /** A dip below the lower limit, or a bump above the upper one, between two ends on the very edge. */
  function Edge(e: real, l: Limits): real { if e > 0.0 then l.lower - TOLERANCE else l.upper + TOLERANCE }
  function QuadraticDip(e: real, l: Limits): Cubic { Cubic(0.0, e, -e, Edge(e, l)) }
  function CubicDip(e: real, l: Limits): Cubic { Cubic(e, 0.0, -e, Edge(e, l)) }

  /** Limits and durations to which a coefficient below the threshold adds nothing that matters. */
  predicate Ordinary(dt: real, l: Limits) {
    dt >= 0.001 && l.lower <= l.upper && l.velocity >= 0.0 && l.acceleration >= 0.0
  }

  lemma SmallQuotient(x: real, divisor: real)
    requires 0.0 <= x <= 6.0 * NEGLIGIBLE && divisor >= 0.000001
    ensures 0.0 <= x / divisor <= TOLERANCE
  {
    var q := x / divisor;
    assert q * divisor == x;
    if q < 0.0 { PositiveProduct(-q, divisor, -x); }
    if q > TOLERANCE { PositiveProduct(q - TOLERANCE, divisor, x - TOLERANCE * divisor); }
  }

  lemma SmallIsSlow(k: Cubic, dt: real, l: Limits, e: real)
    requires Ordinary(dt, l) && 0.0 < Abs(e) <= NEGLIGIBLE
    requires Abs(k.a) + Abs(k.b) <= Abs(e) && k.c == -e
    ensures VelocityOk(k, dt, l, 0.0) && VelocityOk(k, dt, l, 1.0) && AccelerationWithin(k, dt, l)
  {
    EndValues(k);
    var square := dt * dt;
    ScaledTo(0.001, 0.001, dt, 0.000001, 0.001 * dt);
    ScaledTo(dt, 0.001, dt, 0.001 * dt, square);
    SmallQuotient(Abs(Rate(k, 0.0)), dt);
    SmallQuotient(Abs(Rate(k, 1.0)), dt);
    AbsoluteQuotient(Rate(k, 0.0), dt);
    AbsoluteQuotient(Rate(k, 1.0), dt);
    SmallQuotient(Max(Abs(2.0 * k.b), Abs(6.0 * k.a + 2.0 * k.b)), square);
  }

  lemma AbsoluteQuotient(x: real, divisor: real)
    requires divisor > 0.0
    ensures Abs(x / divisor) == Abs(x) / divisor
  {
    if x >= 0.0 { Divided(0.0, x, divisor); } else { Divided(x, 0.0, divisor); }
  }

  lemma OnTheEdge(e: real, l: Limits, p: real)
    requires 0.0 < Abs(e) && l.lower <= l.upper
    ensures p == Edge(e, l) ==> l.lower - TOLERANCE <= p <= l.upper + TOLERANCE
    ensures e > 0.0 && p < Edge(e, l) ==> p < l.lower - TOLERANCE
    ensures e < 0.0 && p > Edge(e, l) ==> p > l.upper + TOLERANCE
  {
  }

  /** Below the threshold the check is not exact: whatever the small coefficient, cubic or quadratic,
      and whatever the limits, some segment passes and leaves the limits between its ends. */
  lemma SmallCoefficientsEscape(e: real, dt: real, l: Limits, root: real)
    requires 0.0 < Abs(e) <= NEGLIGIBLE && Ordinary(dt, l)
    ensures Within(QuadraticDip(e, l), dt, l, root) && !PositionOk(QuadraticDip(e, l), l, 0.5)
    ensures Within(CubicDip(e, l), dt, l, root) && !PositionOk(CubicDip(e, l), l, 0.5)
  {
    Escapes(QuadraticDip(e, l), e, dt, l, root);
    Escapes(CubicDip(e, l), e, dt, l, root);
  }

  lemma Escapes(k: Cubic, e: real, dt: real, l: Limits, root: real)
    requires 0.0 < Abs(e) <= NEGLIGIBLE && Ordinary(dt, l)
    requires k == QuadraticDip(e, l) || k == CubicDip(e, l)
    ensures Within(k, dt, l, root) && !PositionOk(k, l, 0.5)
  {
    EndValues(k);
    assert Position(k, 0.5) == k.d + 0.125 * k.a + 0.25 * k.b + 0.5 * k.c;
    OnTheEdge(e, l, Position(k, 0.0));
    OnTheEdge(e, l, Position(k, 1.0));
    OnTheEdge(e, l, Position(k, 0.5));
    SmallIsSlow(k, dt, l, e);
    hide Position, Rate, VelocityOk, AccelerationWithin;
  }

  /** Every cubic is the Hermite segment of some two knots. */
  lemma EveryCubicIsHermite(k: Cubic, dt: real)
    requires dt > 0.0
    ensures Hermite(Point(k.d, k.c / dt), Point(k.a + k.b + k.c + k.d, (3.0 * k.a + 2.0 * k.b + k.c) / dt), dt) == k
  {
    var v, w := k.c / dt, (3.0 * k.a + 2.0 * k.b + k.c) / dt;
    assert dt * v == k.c && dt * w == 3.0 * k.a + 2.0 * k.b + k.c;
    assert dt * (v + w) == dt * v + dt * w && dt * (2.0 * v + w) == 2.0 * (dt * v) + dt * w;
  }
}
