/** The latency estimator: a ring of the last frame intervals on a wrapping 64-bit microsecond clock,
    the receive rate computed from it, and a smoothed round trip. */
module Latency {
  const WINDOW: nat := 64
  const WRAP: int := 0x1_0000_0000_0000_0000

  /** Unsigned subtraction and addition of 64-bit words. */
  function Minus(a: nat, b: nat): nat { (a - b) % WRAP }
  function Plus(a: nat, b: nat): nat { (a + b) % WRAP }

  // The simple history

  /** The interval before each frame but those that follow a frame at time zero. */
  function Gaps(times: seq<nat>): (gaps: seq<nat>)
    ensures |gaps| <= |times|
  {
    if |times| < 2 then []
    else
      var before := Gaps(times[..|times| - 1]);
      if times[|times| - 2] > 0 then before + [Minus(times[|times| - 1], times[|times| - 2])] else before
  }

  function Least(a: nat, b: nat): nat { if a < b then a else b }

  /** The most recent intervals, as many as the window holds. */
  function Recent(gaps: seq<nat>): seq<nat> { gaps[|gaps| - Least(|gaps|, WINDOW)..] }

  function Sum(s: seq<nat>): nat { if s == [] then 0 else Sum(s[..|s| - 1]) + s[|s| - 1] }

  lemma {:induction false} SumConcat(a: seq<nat>, b: seq<nat>)
    ensures Sum(a + b) == Sum(a) + Sum(b)
  {
    if b == [] {
      assert a + b == a;
    } else {
      assert (a + b)[..|a + b| - 1] == a + b[..|b| - 1];
      SumConcat(a, b[..|b| - 1]);
    }
  }

  /** The sum a 64-bit accumulator ends with. */
  function WrappedSum(s: seq<nat>): nat { if s == [] then 0 else Plus(WrappedSum(s[..|s| - 1]), s[|s| - 1]) }

  lemma {:induction false} WrappedSumRefines(s: seq<nat>)
    ensures WrappedSum(s) == Sum(s) % WRAP
  {
    if s != [] {
      WrappedSumRefines(s[..|s| - 1]);
      ModuloPlus(Sum(s[..|s| - 1]), s[|s| - 1]);
    }
  }

  lemma ModuloPlus(a: nat, b: nat)
    ensures (a % WRAP + b) % WRAP == (a + b) % WRAP
  {
    var q, r := a / WRAP, a % WRAP;
    assert a == q * WRAP + r;
    ModuloMultiple(r + b, q);
  }

  lemma {:induction false} ModuloMultiple(x: nat, q: nat)
    ensures (x + q * WRAP) % WRAP == x % WRAP
  {
    if q > 0 {
      ModuloMultiple(x, q - 1);
      assert x + q * WRAP == (x + (q - 1) * WRAP) + WRAP;
    }
  }

  // The ring

  /** The ring holds the g-th interval in cell g mod the window, for as long as it is recent. */
  ghost predicate Holds(cells: seq<nat>, index: nat, count: nat, gaps: seq<nat>) {
    && |cells| == WINDOW && index == |gaps| % WINDOW && count == Least(|gaps|, WINDOW)
    && forall g: nat :: |gaps| - count <= g < |gaps| ==> cells[g % WINDOW] == gaps[g]
  }

  lemma DistinctCells(g: nat, n: nat)
    requires g < n < g + WINDOW
    ensures g % WINDOW != n % WINDOW
  {
  }

  lemma PushHolds(cells: seq<nat>, index: nat, count: nat, gaps: seq<nat>, gap: nat)
    requires Holds(cells, index, count, gaps)
    ensures Holds(cells[index := gap], (index + 1) % WINDOW, Least(count + 1, WINDOW), gaps + [gap])
  {
    var after := gaps + [gap];
    forall g: nat | |after| - Least(count + 1, WINDOW) <= g < |after|
      ensures cells[index := gap][g % WINDOW] == after[g]
    {
      if g < |gaps| { DistinctCells(g, |gaps|); }
    }
  }

  lemma Turns(n: nat, g: nat)
    requires n >= WINDOW && g < WINDOW
    ensures var turn := n - n % WINDOW; turn >= WINDOW && (turn + g) % WINDOW == g && (turn - WINDOW + g) % WINDOW == g
  {
    var q := n / WINDOW;
    assert n - n % WINDOW == WINDOW * q;
  }

  lemma CellOf(cells: seq<nat>, index: nat, gaps: seq<nat>, g: nat)
    requires |gaps| >= WINDOW && Holds(cells, index, WINDOW, gaps) && g < WINDOW
    ensures index < WINDOW && index <= |gaps| - index
    ensures cells[g] == if g < index then gaps[|gaps| - index + g] else gaps[|gaps| - index - WINDOW + g]
  {
    Turns(|gaps|, g);
    var at := if g < index then |gaps| - index + g else |gaps| - index - WINDOW + g;
    assert at % WINDOW == g;
  }

  lemma FullRing(cells: seq<nat>, index: nat, gaps: seq<nat>)
    requires |gaps| >= WINDOW && Holds(cells, index, WINDOW, gaps)
    ensures index < WINDOW && index <= |gaps| - index && |cells| == WINDOW
    ensures cells[..index] == gaps[|gaps| - index..]
    ensures cells[index..] == gaps[|gaps| - WINDOW..|gaps| - index]
  {
    CellOf(cells, index, gaps, 0);
    assert |cells| == WINDOW;
    hide Holds;
    var turn := |gaps| - index;
    forall g: nat | g < index ensures cells[..index][g] == gaps[turn..][g] {
      CellOf(cells, index, gaps, g);
    }
    forall g: nat | g < WINDOW - index ensures cells[index..][g] == gaps[|gaps| - WINDOW..turn][g] {
      CellOf(cells, index, gaps, index + g);
    }
  }

  /** The filled cells, in ring order, are the recent intervals rotated. */
  lemma FilledCells(cells: seq<nat>, index: nat, count: nat, gaps: seq<nat>)
    requires Holds(cells, index, count, gaps)
    ensures Sum(cells[..count]) == Sum(Recent(gaps))
  {
    var n := |gaps|;
    if n < WINDOW {
      forall g: nat | g < n ensures cells[g] == gaps[g] { assert g % WINDOW == g; }
      assert cells[..count] == gaps == Recent(gaps);
    } else {
      FullRing(cells, index, gaps);
      hide Holds, Sum;
      var old_, new_ := gaps[n - WINDOW..n - index], gaps[n - index..];
      assert cells[..count] == new_ + old_ && Recent(gaps) == old_ + new_;
      SumConcat(new_, old_);
      SumConcat(old_, new_);
    }
  }

  // What the window measures

  predicate Sensible(times: seq<nat>) {
    && (forall i: nat :: i < |times| ==> 0 < times[i] < WRAP)
    && (forall i: nat :: i + 1 < |times| ==> times[i] <= times[i + 1])
  }

  lemma {:induction false} GapsAreDifferences(times: seq<nat>)
    requires Sensible(times) && times != []
    ensures |Gaps(times)| == |times| - 1
    ensures forall g: nat :: g + 1 < |times| ==> Gaps(times)[g] == times[g + 1] - times[g]
  {
    if |times| >= 2 {
      var n := |times| - 1;
      var init := times[..n];
      GapsAreDifferences(init);
      OrderedDifference(times[n], times[n - 1]);
      assert Gaps(times) == Gaps(init) + [times[n] - times[n - 1]];
      hide Gaps;
      forall g: nat | g < n ensures Gaps(times)[g] == times[g + 1] - times[g] {
        if g < n - 1 { assert Gaps(init)[g] == init[g + 1] - init[g]; }
      }
    }
  }

  lemma OrderedDifference(a: nat, b: nat)
    requires b <= a < WRAP
    ensures Minus(a, b) == a - b
  {
  }

  lemma GapsGrow(times: seq<nat>, now: nat)
    ensures Gaps(times + [now])
         == if times != [] && times[|times| - 1] > 0 then Gaps(times) + [Minus(now, times[|times| - 1])] else Gaps(times)
  {
    hide Minus;
    assert (times + [now])[..|times|] == times;
  }

  lemma SmoothedGrows(samples: seq<real>, sample: real)
    ensures Smoothed(samples + [sample])
         == if samples == [] then sample else 0.1 * sample + (1.0 - 0.1) * Smoothed(samples)
  {
    assert (samples + [sample])[..|samples|] == samples;
  }

  /** Consecutive intervals add up to the time between the frames at their ends. */
  lemma {:induction false} Telescopes(times: seq<nat>, from: nat)
    requires Sensible(times) && from < |times|
    ensures from <= |Gaps(times)| && Sum(Gaps(times)[from..]) + times[from] == times[|times| - 1]
  {
    GapsAreDifferences(times);
    if from < |times| - 1 {
      var init := times[..|times| - 1];
      Telescopes(init, from);
      assert Gaps(times)[from..][..|times| - 2 - from] == Gaps(init)[from..];
    }
  }

  /** The frame at the start of the window. */
  function Oldest(times: seq<nat>): nat
    requires times != []
  {
    times[|times| - 1 - Least(|times| - 1, WINDOW)]
  }

  lemma WindowSpan(times: seq<nat>)
    requires Sensible(times) && times != []
    ensures Sum(Recent(Gaps(times))) + Oldest(times) == times[|times| - 1]
    ensures |Recent(Gaps(times))| == Least(|times| - 1, WINDOW)
  {
    GapsAreDifferences(times);
    Telescopes(times, |times| - 1 - Least(|times| - 1, WINDOW));
  }

  function Rate(count: nat, sum: nat): real {
    if count < 4 || sum == 0 then 0.0 else 1000000.0 / (sum as real / count as real)
  }

  lemma RateTimesSpan(count: nat, sum: nat)
    requires count >= 4 && sum > 0
    ensures Rate(count, sum) * sum as real == 1000000.0 * count as real
  {
    var s, c := sum as real, count as real;
    var average := s / c;
    assert average * c == s;
    var rate := 1000000.0 / average;
    assert rate * average == 1000000.0;
    assert rate * s == (rate * average) * c;
  }

  // The round trip

  /** The first sample as it is; after that a tenth of each new one. */
  function Smoothed(samples: seq<real>): real {
    if samples == [] then 0.0
    else if |samples| == 1 then samples[0]
    else 0.1 * samples[|samples| - 1] + (1.0 - 0.1) * Smoothed(samples[..|samples| - 1])
  }

  /** Smoothing never leaves the range of the samples. */
  lemma {:induction false} SmoothedStaysInRange(samples: seq<real>, low: real, high: real)
    requires samples != [] && forall i: nat :: i < |samples| ==> low <= samples[i] <= high
    ensures low <= Smoothed(samples) <= high
  {
    if |samples| > 1 { SmoothedStaysInRange(samples[..|samples| - 1], low, high); }
  }

  class Estimator {
    var received: nat
    var previous: nat
    const intervals: array<nat>
    var index: nat
    var count: nat
    var smoothed: real
    var hasRoundTrip: bool
    ghost var times: seq<nat>
    ghost var samples: seq<real>

    constructor ()
      ensures Valid() && fresh(intervals) && times == [] && samples == []
    {
      received, previous, index, count := 0, 0, 0, 0;
      intervals := new nat[WINDOW](_ => 0);
      smoothed, hasRoundTrip := 0.0, false;
      times, samples := [], [];
      new;
      assert Gaps(times) == [];
    }

    ghost predicate Valid()
      reads this, intervals
    {
      && intervals.Length == WINDOW
      && Holds(intervals[..], index, count, Gaps(times))
      && previous == received == (if times == [] then 0 else times[|times| - 1])
      && hasRoundTrip == (samples != []) && smoothed == Smoothed(samples)
    }

    method MarkReceived(echo: nat, now: nat)
      requires Valid() && echo < WRAP && now < WRAP
      modifies this, intervals
      ensures Valid() && times == old(times) + [now]
      ensures samples == if echo > 0 then old(samples) + [Minus(now, echo) as real / 1000.0] else old(samples)
    {
      GapsGrow(times, now);
      hide Holds, Gaps, Minus, Smoothed;
      received := now;
      if previous > 0 { StoreInterval(Minus(now, previous), Gaps(times)); }
      previous := now;
      times := times + [now];
      if echo > 0 { StoreSample(Minus(now, echo) as real / 1000.0); }
    }

    method StoreInterval(delta: nat, ghost gaps: seq<nat>)
      requires intervals.Length == WINDOW && Holds(intervals[..], index, count, gaps)
      modifies this`index, this`count, intervals
      ensures Holds(intervals[..], index, count, gaps + [delta])
    {
      PushHolds(intervals[..], index, count, gaps, delta);
      assert index < WINDOW;
      hide Holds;
      ghost var cells := intervals[..];
      intervals[index] := delta;
      assert intervals[..] == cells[index := delta];
      index := (index + 1) % WINDOW;
      if count < WINDOW { count := count + 1; }
    }

    method StoreSample(sample: real)
      requires hasRoundTrip == (samples != []) && smoothed == Smoothed(samples)
      modifies this`smoothed, this`hasRoundTrip, this`samples
      ensures hasRoundTrip && smoothed == Smoothed(samples) && samples == old(samples) + [sample]
    {
      SmoothedGrows(samples, sample);
      hide Smoothed;
      if !hasRoundTrip {
        smoothed := sample;
        hasRoundTrip := true;
      } else {
        smoothed := 0.1 * sample + (1.0 - 0.1) * smoothed;
      }
      samples := samples + [sample];
    }

    /** The sum a 64-bit accumulator makes of the filled cells. */
    method Total() returns (sum: nat)
      requires Valid()
      ensures sum == Sum(Recent(Gaps(times))) % WRAP
    {
      FilledCells(intervals[..], index, count, Gaps(times));
      hide Holds, Gaps, Recent, Sum;
      assert intervals[..][..count] == intervals[..count];
      sum := 0;
      for i: nat := 0 to count
        invariant sum == WrappedSum(intervals[..i])
      {
        assert intervals[..i + 1][..i] == intervals[..i];
        sum := Plus(sum, intervals[i]);
      }
      WrappedSumRefines(intervals[..count]);
    }

    /** Frames a second. */
    method ReceiveHz() returns (hz: real)
      requires Valid()
      ensures hz == Rate(|Recent(Gaps(times))|, Sum(Recent(Gaps(times))) % WRAP)
    {
      assert count == |Recent(Gaps(times))|;
      hz := 0.0;
      if count >= 4 {
        var sum := Total();
        hide *;
        RateBy(count, sum);
        var average := sum as real / count as real;
        if average > 0.0 { hz := 1000000.0 / average; }
      }
    }
  }

  lemma RateBy(count: nat, sum: nat)
    requires count >= 4
    ensures var average := sum as real / count as real;
            Rate(count, sum) == if average > 0.0 then 1000000.0 / average else 0.0
  {
    assert sum as real / count as real * count as real == sum as real;
  }

  /** Over sensible times, rate times span is a million times the number of intervals in the window. */
  lemma SensibleRate(times: seq<nat>)
    requires Sensible(times) && |times| > 4 && Oldest(times) < times[|times| - 1]
    ensures Rate(|Recent(Gaps(times))|, Sum(Recent(Gaps(times))) % WRAP)
              * (times[|times| - 1] - Oldest(times)) as real
         == 1000000.0 * Least(|times| - 1, WINDOW) as real
  {
    hide Gaps, Recent, Sum, Rate;
    WindowSpan(times);
    var sum := Sum(Recent(Gaps(times)));
    assert times[|times| - 1] < WRAP && sum % WRAP == sum;
    RateTimesSpan(Least(|times| - 1, WINDOW), sum);
  }
}
