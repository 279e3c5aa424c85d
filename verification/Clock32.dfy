/** The wrapping 32-bit millisecond clock shared by the endpoint and the upgrade client.
    Readings are `Word`s; true time is an unbounded `int` and a reading is its residue. */
module Clock32 {
  const WRAP: int := 0x1_0000_0000
  const HALF: int := 0x8000_0000
  const MAXIMUM_RELATIVE_TIMEOUT: int := 0x7fff_ffff
  const NO_DEADLINE: Word := 0xffff_ffff

  type Word = x: int | 0 <= x < 0x1_0000_0000

  function Reading(time: int): Word { time % WRAP }

  /** Unsigned difference reinterpreted as a two's complement 32-bit integer. */
  function SignedDifference(a: Word, b: Word): int {
    var d := (a - b) % WRAP;
    if d < HALF then d else d - WRAP
  }

  function Min(a: int, b: int): int { if a < b then a else b }
  function Max(a: int, b: int): int { if a > b then a else b }

  /** What is left of a queued operation's timeout. A negative age counts as zero. */
  function QueueRemaining(now: Word, submitted: Word, timeout: Word): (r: Word)
    ensures r <= timeout
  {
    var age := SignedDifference(now, submitted);
    if age <= 0 then timeout else timeout - Min(timeout, age)
  }

  /** Time left until an instant; an instant that has passed is due now. */
  function Until(now: Word, target: Word): (r: Word)
    ensures r < HALF
  {
    var remaining := SignedDifference(target, now);
    if remaining <= 0 then 0 else remaining
  }

  /** Time since an instant; an instant a little in the future counts as just now. */
  function Elapsed(now: Word, since: Word): (r: Word)
    ensures r < HALF
  {
    var delta := SignedDifference(now, since);
    if delta < 0 then 0 else delta
  }

  /** On ages within half the clock's range the wrapped difference is the true one. */
  lemma SignedDifferenceRefines(a: int, b: int)
    requires -HALF <= a - b < HALF
    ensures SignedDifference(Reading(a), Reading(b)) == a - b
  {
    var ra, rb := Reading(a), Reading(b);
    assert (ra - rb) % WRAP == (a - b) % WRAP by {
      assert a == WRAP * (a / WRAP) + ra && b == WRAP * (b / WRAP) + rb;
      ModuloShift(a - b, ra - rb, a / WRAP - b / WRAP);
    }
  }

  lemma ModuloShift(x: int, y: int, k: int)
    requires x == y + WRAP * k
    ensures x % WRAP == y % WRAP
  {
    var q, r := y / WRAP, y % WRAP;
    assert x == WRAP * (q + k) + r;
  }

  /** Refinement of `QueueRemaining` to unbounded time: what is left until the deadline, capped by the
      timeout itself when the clock reads before the submission, and nothing after it. */
  lemma QueueRemainingRefines(now: int, submitted: int, timeout: Word)
    requires -HALF <= now - submitted < HALF
    ensures QueueRemaining(Reading(now), Reading(submitted), timeout)
         == Max(0, Min(timeout, submitted + timeout - now))
  {
    SignedDifferenceRefines(now, submitted);
  }

  /** A positive remainder is still positive any shorter time later: no false expiry,
      whatever the readings are, as long as the timeout is a relative one. */
  lemma QueueRemainingLater(now: Word, submitted: Word, timeout: Word, sleep: nat)
    requires timeout < HALF
    requires sleep < QueueRemaining(now, submitted, timeout)
    ensures QueueRemaining(Reading(now + sleep), submitted, timeout) > 0
  {
    var age := SignedDifference(now, submitted);
    LaterDifference(now, submitted, sleep);
  }

  lemma LaterDifference(now: Word, origin: Word, sleep: nat)
    requires SignedDifference(now, origin) + sleep < HALF
    ensures SignedDifference(Reading(now + sleep), origin) == SignedDifference(now, origin) + sleep
  {
    var d := SignedDifference(now, origin);
    var k := (now - origin) / WRAP;
    assert now - origin == WRAP * k + (now - origin) % WRAP;
    var m := (now + sleep) / WRAP;
    assert now + sleep == WRAP * m + Reading(now + sleep);
    var k' := if (now - origin) % WRAP < HALF then k else k + 1;
    assert now - origin == WRAP * k' + d;
    assert Reading(now + sleep) - origin == WRAP * (k' - m) + (d + sleep);
    ModuloShift(Reading(now + sleep) - origin, d + sleep, k' - m);
    var e := d + sleep;
    if 0 <= e {
      assert e % WRAP == e;
    } else {
      ModuloShift(e, e + WRAP, -1);
      assert (e + WRAP) % WRAP == e + WRAP;
    }
  }

  /** Same for an absolute instant. */
  lemma UntilLater(now: Word, target: Word, sleep: nat)
    requires sleep < Until(now, target)
    ensures Until(Reading(now + sleep), target) == Until(now, target) - sleep
  {
    var r := SignedDifference(target, now);
    var k := (target - now) / WRAP;
    assert target - now == WRAP * k + r;
    var m := (now + sleep) / WRAP;
    assert now + sleep == WRAP * m + Reading(now + sleep);
    assert target - Reading(now + sleep) == WRAP * (k + m) + (r - sleep);
    ModuloShift(target - Reading(now + sleep), r - sleep, k + m);
    assert (r - sleep) % WRAP == r - sleep;
  }
}
