/** What every critical section of the endpoint keeps. */
module EndpointInvariant {
  import opened Clock32
  import opened EndpointModel

  /** A successful payload is of the kind that was asked for and passed its checks. */
  predicate PayloadFits(kind: Kind, payload: Payload) {
    && (kind == GetDeviceInfo ==> payload.Info? && ValidInfo(payload.info))
    && ((kind == GetDeviceSettings || kind == SetDeviceSettings) ==>
          payload.Settings? && ValidSettings(payload.settings))
    && (kind == MotorRegisterRead ==> payload.Register?)
  }

  predicate SlotOk(s: State, i: nat)
    requires i < |s.slots|
  {
    var x := s.slots[i];
    if !x.used then x == EMPTY_SLOT && s.active != i
    else
      && 0 < x.id < s.nextId
      && ValidTimeout(x.timeout)
      && (x.state == Queued || x.state == LinkPending || Terminal(x.state))
      && (x.state == LinkPending <==> s.active == i)
      && (x.state == Queued ==> !x.admitted)
      && (i == CAPACITY - 1 ==> x.internal)
      && (x.internal ==> !Terminal(x.state) && x.kind == AcquireLease)
      && (x.kind == AcquireLease ==> ValidTimeout(x.request.leaseTimeout))
      && (Terminal(x.state) && x.status == Ok ==> PayloadFits(x.kind, x.payload))
  }

  predicate DistinctIds(slots: seq<Slot>) {
    forall i, j :: 0 <= i < j < |slots| && slots[i].used && slots[j].used ==> slots[i].id != slots[j].id
  }

  /** RPCs started and not yet released: exactly the admitted active one. */
  function InFlight(s: State): nat {
    if s.active < |s.slots| && s.slots[s.active].admitted then 1 else 0
  }

  predicate LeaseOk(s: State) {
    s.lease.state == Held ==>
      && s.lease.token != 0
      && 0 < s.lease.granted < HALF
      && ValidTimeout(s.requestedTimeout)
      && Until(s.renewAt, s.expireAt) == s.lease.granted - Max(1, s.lease.granted / 2)
  }

  predicate Inv(s: State) {
    && |s.slots| == CAPACITY
    && s.active <= NO_SLOT
    && 0 < s.nextId <= MAXIMUM_ID
    && (forall i :: 0 <= i < CAPACITY ==> SlotOk(s, i))
    && DistinctIds(s.slots)
    && s.started == s.released + InFlight(s)
    && LeaseOk(s)
  }

  lemma InitialInv()
    ensures Inv(INITIAL)
  {
  }

  /** The ids of operations that have been accepted and have no outcome yet. */
  function Live(s: State): set<nat> {
    set i | 0 <= i < |s.slots| && IsLive(s.slots[i]) :: s.slots[i].id
  }

  /** A finished operation's slot is kept as it is, or consumed. */
  predicate ResultsKept(s: State, t: State) {
    && |s.slots| == |t.slots|
    && forall i :: 0 <= i < |s.slots| && s.slots[i].used && Terminal(s.slots[i].state) ==>
         t.slots[i] == s.slots[i] || t.slots[i] == EMPTY_SLOT
  }

  /** What any step may do to the table: finished results stand, and the only new live id
      is the one just handed out. */
  predicate Progress(s: State, t: State) {
    && ResultsKept(s, t)
    && s.nextId <= t.nextId <= s.nextId + 1
    && (forall id :: id in Live(t) ==> id in Live(s) || (id == s.nextId && t.nextId == s.nextId + 1))
  }

  /** Replacing one slot: the table invariant follows from the new slot alone. */
  lemma ReplaceSlot(s: State, t: State, i: nat)
    requires Inv(s) && i < CAPACITY
    requires |t.slots| == CAPACITY && t.slots == s.slots[i := t.slots[i]]
    requires t.active == s.active || (s.active == i && t.active == NO_SLOT) || (s.active == NO_SLOT && t.active == i)
    requires s.nextId <= t.nextId <= MAXIMUM_ID
    requires SlotOk(t, i)
    requires t.slots[i].used ==> t.slots[i].id == s.nextId < t.nextId || (s.slots[i].used && t.slots[i].id == s.slots[i].id)
    ensures forall k :: 0 <= k < CAPACITY ==> SlotOk(t, k)
    ensures DistinctIds(t.slots)
  {
    forall k | 0 <= k < CAPACITY ensures SlotOk(t, k) {
      if k != i {
        assert SlotOk(s, k) && t.slots[k] == s.slots[k];
      }
    }
    forall a, b | 0 <= a < b < CAPACITY && t.slots[a].used && t.slots[b].used
      ensures t.slots[a].id != t.slots[b].id
    {
      assert SlotOk(s, a) && SlotOk(s, b);
    }
  }

  lemma ReplaceLive(s: State, t: State, i: nat)
    requires i < |s.slots| == |t.slots| && t.slots == s.slots[i := t.slots[i]]
    requires IsLive(t.slots[i]) ==> IsLive(s.slots[i]) && t.slots[i].id == s.slots[i].id
    ensures Live(t) <= Live(s)
  {
    forall id | id in Live(t) ensures id in Live(s) {
      var k :| 0 <= k < |t.slots| && IsLive(t.slots[k]) && t.slots[k].id == id;
      assert IsLive(s.slots[k]) && s.slots[k].id == id;
    }
  }

  /** A public caller may only hand in arguments the API's own checks let through. */
  predicate PublicArguments(kind: Kind, timeout: Word, request: Request) {
    kind != NoKind && ValidTimeout(timeout) && (kind == AcquireLease ==> ValidTimeout(request.leaseTimeout))
  }

  lemma SubmitInv(s: State, upgrading: bool, kind: Kind, timeout: Word, request: Request, internal: bool, now: Word)
    requires Inv(s) && s.nextId < MAXIMUM_ID
    requires PublicArguments(kind, timeout, request)
    requires internal ==> kind == AcquireLease
    ensures var r := Submit(s, upgrading, kind, timeout, request, internal, now);
            && Inv(r.state)
            && Progress(s, r.state)
            && r.state.lease.token == s.lease.token
            && (r.status != Ok ==> r.state == s)
            && (r.status == Ok ==> r.id == s.nextId && r.state.nextId == s.nextId + 1)
  {
    var r := Submit(s, upgrading, kind, timeout, request, internal, now);
    var t := r.state;
    if r.status == Ok {
      var i := AllocateSlot(s.slots, internal);
      assert SlotOk(s, i);
      ReplaceSlot(s, t, i);
      forall id | id in Live(t) && id != s.nextId ensures id in Live(s) {
        var k :| 0 <= k < CAPACITY && IsLive(t.slots[k]) && t.slots[k].id == id;
        assert IsLive(s.slots[k]) && s.slots[k].id == id;
      }
    }
  }

  lemma TakeInv(s: State, form: TakeForm, id: nat)
    requires Inv(s)
    ensures Inv(Take(s, form, id).state) && Progress(s, Take(s, form, id).state)
  {
    var t := Take(s, form, id).state;
    if t != s {
      var i := FindSlot(s.slots, id, 0);
      assert SlotOk(s, i);
      ReplaceSlot(s, t, i);
      ReplaceLive(s, t, i);
    }
  }

  /** Grant g at time `now`: the renewal is due no later than the expiry. */
  lemma RenewBeforeExpiry(now: Word, granted: Word)
    requires 0 < granted < HALF
    ensures Until(Reading(now + Max(1, granted / 2)), Reading(now + granted)) == granted - Max(1, granted / 2)
  {
    SignedDifferenceRefines(now + granted, now + Max(1, granted / 2));
  }

  lemma FinalLeaseOk(s: State, slot: Slot, c: Completion, now: Word)
    requires LeaseOk(s)
    requires slot.kind == AcquireLease ==> ValidTimeout(slot.request.leaseTimeout)
    ensures LeaseOk(FinalLease(s, slot, c, now))
  {
    if s.running && slot.kind == AcquireLease && FinalStatus(slot.kind, slot.request, c) == Ok {
      RenewBeforeExpiry(now, c.response.value.timeout);
    }
  }

  lemma FinalizeInv(s: State, i: nat, c: Completion, now: Word)
    requires Inv(s) && i < CAPACITY && IsLive(s.slots[i])
    ensures Inv(Finalize(s, i, c, now)) && Progress(s, Finalize(s, i, c, now))
    ensures s.slots[i].id !in Live(Finalize(s, i, c, now))
  {
    var t := Finalize(s, i, c, now);
    assert SlotOk(s, i);
    FinalLeaseOk(s, s.slots[i], c, now);
    ReplaceSlot(s, t, i);
    ReplaceLive(s, t, i);
  }

  lemma LeaseStepInv(s: State, t: State)
    requires Inv(s) && LeaseOk(t)
    requires t == s.(lease := t.lease)
    ensures Inv(t) && Progress(s, t)
  {
    forall i | 0 <= i < CAPACITY ensures SlotOk(t, i) { assert SlotOk(s, i); }
  }

  lemma PickInv(s: State)
    requires Inv(s)
    ensures Inv(Pick(s)) && Progress(s, Pick(s))
  {
    var t, i := Pick(s), Candidate(s);
    if i != NO_SLOT {
      assert SlotOk(s, i);
      ReplaceSlot(s, t, i);
      ReplaceLive(s, t, i);
    }
  }

  lemma AdmitInv(s: State, i: nat)
    requires Inv(s) && i < CAPACITY && s.active == i && !s.slots[i].admitted
    ensures Inv(Admit(s, i)) && Progress(s, Admit(s, i))
  {
    assert SlotOk(s, i);
    ReplaceSlot(s, Admit(s, i), i);
    ReplaceLive(s, Admit(s, i), i);
  }

  lemma RequeueInv(s: State, i: nat)
    requires Inv(s) && i < CAPACITY && s.active == i && !s.slots[i].admitted
    ensures Inv(Requeue(s, i)) && Progress(s, Requeue(s, i))
  {
    assert SlotOk(s, i);
    ReplaceSlot(s, Requeue(s, i), i);
    ReplaceLive(s, Requeue(s, i), i);
  }

  lemma StopInv(s: State)
    requires Inv(s)
    ensures Inv(StopOnOwner(s)) && Progress(s, StopOnOwner(s))
    ensures forall i :: 0 <= i < CAPACITY ==> !IsQueued(StopOnOwner(s).slots[i])
    ensures StopOnOwner(s).active == s.active
    ensures s.active < CAPACITY ==> StopOnOwner(s).slots[s.active] == s.slots[s.active]
  {
    var t := StopOnOwner(s);
    forall i | 0 <= i < CAPACITY ensures SlotOk(t, i) { assert SlotOk(s, i); }
    assert s.active < CAPACITY ==> SlotOk(s, s.active);
    forall id | id in Live(t) ensures id in Live(s) {
      var k :| 0 <= k < CAPACITY && IsLive(t.slots[k]) && t.slots[k].id == id;
      assert IsLive(s.slots[k]);
    }
  }
}
