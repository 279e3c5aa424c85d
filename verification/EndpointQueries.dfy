/** Slot-table accounting, typed takes and the deadline hint. */
module EndpointQueries {
  import opened Clock32
  import opened EndpointModel
  import opened EndpointInvariant

  /** Which slot, if any, holds a finished operation this take may consume. */
  predicate Ripe(s: State, form: TakeForm, id: nat, i: nat) {
    && i < |s.slots| && s.slots[i].used && s.slots[i].id == id
    && Accepts(form, s.slots[i].kind) && Terminal(s.slots[i].state)
  }

  lemma RipeIsFound(s: State, form: TakeForm, id: nat, i: nat)
    requires Inv(s) && Ripe(s, form, id, i)
    ensures FindSlot(s.slots, id, 0) == i
  {
    assert DistinctIds(s.slots);
  }

  /** A take consumes exactly the finished operation of that id, if the kind is right. */
  lemma TakeConsumes(s: State, form: TakeForm, id: nat, i: nat)
    requires Inv(s) && Ripe(s, form, id, i)
    ensures var r := Take(s, form, id);
            && r.state == s.(slots := s.slots[i := EMPTY_SLOT]) != s
            && r.status == s.slots[i].status
            && (form != TakeAny ==> (r.status == Ok <==> r.written.Some?))
            && (r.written.Some? ==> r.written.value == s.slots[i].payload && PayloadFits(s.slots[i].kind, r.written.value))
  {
    RipeIsFound(s, form, id, i);
    assert SlotOk(s, i);
    assert Take(s, form, id).state.slots[i] != s.slots[i];
  }

  /** Any other take changes nothing, writes nothing, and says so. */
  lemma TakeRefuses(s: State, form: TakeForm, id: nat)
    requires Inv(s) && forall i: nat :: !Ripe(s, form, id, i)
    ensures var r := Take(s, form, id);
            r.state == s && r.written.None? && (r.status == NoData || r.status == Busy)
    ensures Take(s, form, id).status == Busy <==>
              exists i :: 0 <= i < CAPACITY && IsLive(s.slots[i]) && s.slots[i].id == id && Accepts(form, s.slots[i].kind)
  {
    var k := FindSlot(s.slots, id, 0);
    assert DistinctIds(s.slots);
    assert k != NO_SLOT ==> !Ripe(s, form, id, k);
  }

  /** Public operations never get the reserved slot, and an internal one finds it free
      unless another internal operation is in it. */
  lemma ReservedSlot(s: State)
    requires Inv(s)
    ensures AllocateSlot(s.slots, false) != CAPACITY - 1
    ensures AllocateSlot(s.slots, true) != CAPACITY - 1 ==>
              s.slots[CAPACITY - 1].used && s.slots[CAPACITY - 1].internal && s.slots[CAPACITY - 1].kind == AcquireLease
  {
    assert SlotOk(s, CAPACITY - 1);
  }

  /** Sleeping for less than the hint reaches no instant at which the owner has something to
      do: no queued operation has expired, no held lease is due, no renewing one overdue. */
  lemma DeadlineIsSound(s: State, now: Word, sleep: nat, i: nat)
    requires Inv(s) && i < CAPACITY
    requires sleep < Deadline(s, now)
    ensures var later := Reading(now + sleep);
            !HasExpired(s.slots[i], later) && !RenewalDue(s, later) && !LeaseOverdue(s, later)
  {
    assert SlotOk(s, i);
    if IsQueued(s.slots[i]) {
      QueueRemainingLater(now, s.slots[i].submittedAt, s.slots[i].timeout, sleep);
    }
    if s.lease.state == Held { UntilLater(now, s.renewAt, sleep); }
    if s.lease.state == RenewQueued || s.lease.state == Renewing { UntilLater(now, s.expireAt, sleep); }
  }

  /** And the hint is zero only when there is something to do. */
  lemma DeadlineIsNotEager(s: State, now: Word)
    requires Inv(s)
    ensures Deadline(s, now) == 0 <==>
              (exists i :: 0 <= i < CAPACITY && HasExpired(s.slots[i], now)) || RenewalDue(s, now) || LeaseOverdue(s, now)
  {
    var queue := QueueDeadline(s.slots, |s.slots|, now);
    if queue == 0 {
      var k :| 0 <= k < |s.slots| && IsQueued(s.slots[k])
        && queue == QueueRemaining(now, s.slots[k].submittedAt, s.slots[k].timeout);
      assert HasExpired(s.slots[k], now);
    }
  }

  /** A renewal that starts after the lease ran out leaves the lease renewing without a
      token: `Renewing` alone does not mean that commands may be sent. */
  lemma RenewingWithoutToken(s: State, now: Word)
    requires Inv(s) && LeaseOverdue(s, now)
    requires Candidate(s) != NO_SLOT && s.slots[Candidate(s)].kind == AcquireLease && s.slots[Candidate(s)].internal
    ensures var t := Pick(ExpireLease(s, now));
            t.lease.state == Renewing && t.lease.token == 0 && !CommandToken(t, false).TokenIs?
  {
  }
}
