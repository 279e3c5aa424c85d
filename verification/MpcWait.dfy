/** How a worker waits for its next slot. It sleeps on its semaphore, and looks again whenever the slot
    has come, a token has come, or it woke for no reason. */
module MpcWait {
  /** One test of the loop: whether a stop was requested, and the clock. */
  datatype Look = Look(stopped: bool, now: int)
  /** The tests of one wait in turn, and whether a stop was requested when it returned. */
  datatype Wait = Wait(looks: seq<Look>, stopped: bool)
  datatype Waited = Waiting | Interrupted | Reached(now: int)

  predicate Over(time: int, look: Look) { look.stopped || time <= look.now }

  function WaitUntil(time: int, w: Wait): Waited
    decreases |w.looks|
  {
    if w.looks == [] then Waiting
    else if Over(time, w.looks[0]) then (if w.stopped then Interrupted else Reached(w.looks[0].now))
    else WaitUntil(time, Wait(w.looks[1..], w.stopped))
  }

  /** A stop request is never withdrawn, and the clock does not go back. */
  predicate Possible(w: Wait, since: int) {
    forall k :: 0 <= k < |w.looks| ==> since <= w.looks[k].now && (w.looks[k].stopped ==> w.stopped)
  }

  /** A wait that comes through has reached its time. */
  lemma {:induction false} ReachedInTime(time: int, w: Wait, since: int)
    requires Possible(w, since) && WaitUntil(time, w).Reached?
    ensures time <= WaitUntil(time, w).now && since <= WaitUntil(time, w).now && !w.stopped
    decreases |w.looks|
  {
    if !Over(time, w.looks[0]) {
      var rest := Wait(w.looks[1..], w.stopped);
      assert forall k :: 0 <= k < |rest.looks| ==> rest.looks[k] == w.looks[k + 1];
      ReachedInTime(time, rest, since);
    }
  }

  /** And it goes on exactly as long as it sees neither the time come nor a stop. */
  lemma {:induction false} WaitsExactlyAsLong(time: int, w: Wait)
    ensures WaitUntil(time, w).Waiting? <==> forall k :: 0 <= k < |w.looks| ==> !Over(time, w.looks[k])
    decreases |w.looks|
  {
    if w.looks != [] && !Over(time, w.looks[0]) {
      var rest := Wait(w.looks[1..], w.stopped);
      WaitsExactlyAsLong(time, rest);
      assert forall k :: 0 <= k < |rest.looks| ==> rest.looks[k] == w.looks[k + 1];
      forall k | 0 <= k < |w.looks| && WaitUntil(time, w).Waiting? ensures !Over(time, w.looks[k]) {
        if k > 0 { assert rest.looks[k - 1] == w.looks[k]; }
      }
    }
  }

  method AwaitSlot(time: int, w: Wait) returns (waited: Waited)
    ensures waited == WaitUntil(time, w)
  {
    var k := 0;
    while k < |w.looks| && !w.looks[k].stopped && w.looks[k].now < time
      invariant 0 <= k <= |w.looks| && WaitUntil(time, w) == WaitUntil(time, Wait(w.looks[k..], w.stopped))
    {
      assert w.looks[k..][1..] == w.looks[k + 1..];
      k := k + 1;
    }
    if k == |w.looks| { return Waiting; }
    waited := if w.stopped then Interrupted else Reached(w.looks[k].now);
  }
}
