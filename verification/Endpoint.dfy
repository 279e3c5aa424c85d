/** The endpoint object: a fixed table of operation slots, one link, one lease. Every method
    is one critical section of the source, or a fixed sequence of them, and is proved to do
    to the fields what the functions of EndpointModel do to a state. The upgrade client's
    flag, the clock and the link's answers are parameters. */
module EndpointObject {
  import opened Clock32
  import opened EndpointModel
  import opened EndpointInvariant
  import opened EndpointRuns
  import opened Wrappers

  /** Distance of the owner from the end of its pass. */
  function Rank(owner: Owner): nat {
    match owner
    case Idle => 0
    case Refusing(_) => 1
    case Starting(_, _) => 2
    case Picking(_) => 3
    case SubmittingRenewal(_, _, _) => 4
    case CheckingRenewal(_) => 5
    case CheckingLease(_) => 6
    case Sweeping(i, _) => if i >= CAPACITY then 7 else 7 + 2 * (CAPACITY - i)
    case Expiring(i, _) => if i >= CAPACITY then 8 else 6 + 2 * (CAPACITY - i)
  }

  /** What the clock says in each section of a pass; no section comes twice in one. */
  type Clocks = Owner -> Word

  /** The owner's pass run to its end with no other thread in between. */
  function Alone(w: World, upgrading: bool, clocks: Clocks, answer: Answer): World
    requires Shaped(w)
    decreases Rank(w.owner)
  {
    if w.owner.Idle? then w else Alone(OwnerNext(w, upgrading, clocks(w.owner), answer), upgrading, clocks, answer)
  }

  function Budget(s: State, index: nat, now: Word): Word
    requires index < |s.slots|
  {
    QueueRemaining(now, s.slots[index].submittedAt, s.slots[index].timeout)
  }

  /** The picked operation after the link's answer: expired, with the link, queued again, or failed. */
  function Offered(s: State, index: nat, now: Word, clocks: Clocks, answer: Answer): State
    requires index < |s.slots|
  {
    if Budget(s, index, now) == 0 then Finalize(s, index, EXPIRED, clocks(Starting(index, now)))
    else
      match answer
      case Accepted => Admit(s, index)
      case LinkBusy => Requeue(s, index)
      case Refused => Finalize(Requeue(s, index), index, START_FAILED, clocks(Refusing(index)))
  }

  lemma AloneWhenStarting(w: World, upgrading: bool, clocks: Clocks, answer: Answer)
    requires Shaped(w) && w.owner.Starting?
    ensures Alone(w, upgrading, clocks, answer).state == Offered(w.state, w.owner.index, w.owner.now, clocks, answer)
  {
    var v := OwnerNext(w, upgrading, clocks(w.owner), answer);
    assert Alone(w, upgrading, clocks, answer) == Alone(v, upgrading, clocks, answer);
    if v.owner.Refusing? {
      var u := OwnerNext(v, upgrading, clocks(v.owner), answer);
      assert Alone(v, upgrading, clocks, answer) == Alone(u, upgrading, clocks, answer);
    }
  }

  class Endpoint {
    const operations: array<Slot>
    var active: nat
    var nextId: nat
    var lease: Lease
    var renewAt: Word
    var expireAt: Word
    var requestedTimeout: Word
    var running: bool
    var started: nat
    var released: nat

    ghost predicate Valid()
      reads this
    {
      operations.Length == CAPACITY && active <= NO_SLOT
    }

    ghost function Abs(): (s: State)
      reads this, operations
      requires Valid()
      ensures |s.slots| == CAPACITY
    {
      State(operations[..], active, nextId, lease, renewAt, expireAt, requestedTimeout, running, started, released)
    }

    constructor ()
      ensures Valid() && Abs() == INITIAL && fresh(operations)
    {
      operations := new Slot[CAPACITY](_ => EMPTY_SLOT);
      active, nextId, lease := NO_SLOT, 1, NO_LEASE;
      renewAt, expireAt, requestedTimeout := 0, 0, 0;
      running, started, released := false, 0, 0;
      new;
      assert operations[..] == INITIAL.slots;
    }

    // Scans over the slot table

    method FindSlotOf(id: nat) returns (index: nat)
      requires Valid()
      ensures index == FindSlot(operations[..], id, 0)
    {
      index := 0;
      while index < CAPACITY
        invariant index <= CAPACITY
        invariant FindSlot(operations[..], id, 0) == FindSlot(operations[..], id, index)
      {
        if operations[index].used && operations[index].id == id { return; }
        index := index + 1;
      }
    }

    method FindQueuedSlot() returns (selected: nat)
      requires Valid()
      ensures selected == OldestQueued(operations[..], CAPACITY)
    {
      selected := NO_SLOT;
      var oldest := MAXIMUM_ID;
      for index := 0 to CAPACITY
        invariant selected == OldestQueued(operations[..], index)
        invariant oldest == if selected == NO_SLOT then MAXIMUM_ID else operations[selected].id
      {
        var slot := operations[index];
        if slot.used && slot.state == Queued && slot.id < oldest {
          selected, oldest := index, slot.id;
        }
      }
    }

    method FreeSlot(internal: bool) returns (index: nat)
      requires Valid()
      ensures index == AllocateSlot(operations[..], internal)
    {
      if internal && !operations[CAPACITY - 1].used { return CAPACITY - 1; }
      var limit := if internal then CAPACITY else PUBLIC_CAPACITY;
      index := 0;
      while index < limit
        invariant index <= limit
        invariant FirstFree(operations[..], 0, limit) == FirstFree(operations[..], index, limit)
      {
        if !operations[index].used { return; }
        index := index + 1;
      }
      index := NO_SLOT;
    }

    // Producers

    method SubmitOperation(upgrading: bool, kind: Kind, timeout: Word, request: Request, internal: bool, now: Word)
      returns (status: Status, id: nat)
      requires Valid()
      modifies this, operations
      ensures Valid()
      ensures Submission(Abs(), status, id) == Submit(old(Abs()), upgrading, kind, timeout, request, internal, now)
    {
      if upgrading && kind != GetDeviceInfo && kind != GetDeviceSettings && kind != EmergencyStop { return Busy, 0; }
      if !running { return NotReady, 0; }
      var index := FreeSlot(internal);
      if index == NO_SLOT { return QueueFull, 0; }
      hide QueuedLease, AllocateSlot, NextId;
      id := Occupy(index, kind, timeout, request, internal, now);
      QueueLease(kind, request, internal);
      status := Ok;
    }

    /** A free slot takes the operation under the next id. */
    method Occupy(index: nat, kind: Kind, timeout: Word, request: Request, internal: bool, now: Word) returns (id: nat)
      requires Valid() && index < CAPACITY
      modifies this`nextId, operations
      ensures id == old(nextId) && nextId == NextId(id)
      ensures operations[..] == old(operations[..])[index :=
                EMPTY_SLOT.(used := true, internal := internal, id := id, timeout := timeout, submittedAt := now,
                            request := request, kind := kind, state := Queued, status := Ok)]
    {
      id := nextId;
      nextId := if nextId + 1 == ID_WRAP then 1 else nextId + 1;
      operations[index] := Slot(true, internal, false, id, timeout, now, request, kind, Queued, Ok, 0, 0, NoPayload);
    }

    /** The lease while an operation on it waits. */
    method QueueLease(kind: Kind, request: Request, internal: bool)
      modifies this`lease
      ensures lease == QueuedLease(old(lease), kind, request, internal)
    {
      if kind == AcquireLease {
        var renews := internal || request.leaseToken != 0;
        lease := lease.(state := if renews then RenewQueued else AcquireQueued, status := Ok);
      } else if kind == ReleaseLease {
        lease := lease.(state := ReleaseQueued, status := Ok);
      }
    }

    /** The first of acquiring's two critical sections: the token to renew, or a refusal. What
        it saw may be out of date by the time the second one, a submission, runs. */
    method CheckBeforeAcquire() returns (token: Option<nat>)
      requires Valid()
      ensures token == if LeaseBusy(lease.state) then None
                       else Some(if lease.state == Held then lease.token else 0)
    {
      match lease.state {
        case AcquireQueued => return None;
        case Acquiring => return None;
        case RenewQueued => return None;
        case Renewing => return None;
        case ReleaseQueued => return None;
        case Releasing => return None;
        case _ =>
      }
      token := Some(if lease.state == Held then lease.token else 0);
    }

    method AcquireControlLease(requested: Word, timeout: Word, upgrading: bool, now: Word) returns (status: Status, id: nat)
      requires Valid()
      modifies this, operations
      ensures Valid()
      ensures !(ValidTimeout(requested) && ValidTimeout(timeout)) ==> status == InvalidArgument && Abs() == old(Abs())
      ensures ValidTimeout(requested) && ValidTimeout(timeout) && LeaseBusy(old(lease).state) ==>
                status == Busy && Abs() == old(Abs())
      ensures ValidTimeout(requested) && ValidTimeout(timeout) && !LeaseBusy(old(lease).state) ==>
                Submission(Abs(), status, id) ==
                Submit(old(Abs()), upgrading, AcquireLease, timeout,
                       Request(if old(lease).state == Held then old(lease).token else 0, requested, 0, 0), false, now)
    {
      if requested == 0 || requested >= MAXIMUM_RELATIVE_TIMEOUT || timeout == 0 || timeout >= MAXIMUM_RELATIVE_TIMEOUT {
        return InvalidArgument, 0;
      }
      var token := CheckBeforeAcquire();
      if token.None? { return Busy, 0; }
      status, id := SubmitOperation(upgrading, AcquireLease, timeout, Request(token.value, requested, 0, 0), false, now);
    }

    method ReleaseControlLease(timeout: Word, upgrading: bool, now: Word) returns (status: Status, id: nat)
      requires Valid()
      modifies this, operations
      ensures Valid()
      ensures !ValidTimeout(timeout) ==> status == InvalidArgument && Abs() == old(Abs())
      ensures ValidTimeout(timeout) && !LeaseUsable(old(lease)) ==> status == NoLease && Abs() == old(Abs())
      ensures ValidTimeout(timeout) && LeaseUsable(old(lease)) ==>
                Submission(Abs(), status, id) ==
                Submit(old(Abs()), upgrading, ReleaseLease, timeout, Request(old(lease).token, 0, 0, 0), false, now)
    {
      if timeout == 0 || timeout >= MAXIMUM_RELATIVE_TIMEOUT { return InvalidArgument, 0; }
      if (lease.state != Held && lease.state != RenewQueued && lease.state != Renewing) || lease.token == 0 {
        return NoLease, 0;
      }
      status, id := SubmitOperation(upgrading, ReleaseLease, timeout, Request(lease.token, 0, 0, 0), false, now);
    }

    method TakeOperation(form: TakeForm, id: nat) returns (status: Status, written: Option<Payload>)
      requires Valid()
      modifies operations
      ensures Valid() && Taken(Abs(), status, written) == Take(old(Abs()), form, id)
    {
      var index := FindSlotOf(id);
      if index == NO_SLOT || !Accepts(form, operations[index].kind) { return NoData, None; }
      var slot := operations[index];
      if !Terminal(slot.state) { return Busy, None; }
      written := Written(form, slot);
      operations[index] := EMPTY_SLOT;
      status := slot.status;
    }

    method CommandLeaseToken(upgrading: bool) returns (token: Token)
      requires Valid()
      ensures token == CommandToken(Abs(), upgrading)
    {
      if upgrading { return NoToken(Busy); }
      if !running { return NoToken(NotReady); }
      if (lease.state != Held && lease.state != RenewQueued && lease.state != Renewing) || lease.token == 0 {
        return NoToken(NoLease);
      }
      token := TokenIs(lease.token);
    }

    method ApplicationDeadline(now: Word) returns (nearest: Word)
      requires Valid()
      ensures nearest == Deadline(Abs(), now)
    {
      nearest := NO_DEADLINE;
      for index := 0 to CAPACITY
        invariant nearest == QueueDeadline(operations[..], index, now)
      {
        var slot := operations[index];
        if slot.used && slot.state == Queued {
          nearest := Min(nearest, QueueRemaining(now, slot.submittedAt, slot.timeout));
        }
      }
      if lease.state == Held {
        nearest := Min(nearest, Until(now, renewAt));
      } else if lease.state == RenewQueued || lease.state == Renewing {
        nearest := Min(nearest, Until(now, expireAt));
      }
    }

    // The owner

    /** The lease fields after an operation's outcome. */
    method FinalizeLease(slot: Slot, c: Completion, now: Word)
      requires Valid()
      modifies this`lease, this`requestedTimeout, this`renewAt, this`expireAt
      ensures Abs() == FinalLease(old(Abs()), slot, c, now)
    {
      var status := FinalStatus(slot.kind, slot.request, c);
      if !running {
        lease := NO_LEASE.(status := Cancelled);
      } else if slot.kind == AcquireLease {
        if status == Ok {
          var grant := c.response.value;
          lease := Lease(Held, Ok, c.rejection, grant.token, grant.timeout);
          requestedTimeout := slot.request.leaseTimeout;
          renewAt := Reading(now + Max(1, grant.timeout / 2));
          expireAt := Reading(now + grant.timeout);
        } else {
          lease := lease.(state := if FinalState(c.status) == TimedOut then Expired else Failed,
                          status := status, domainStatus := c.rejection, token := 0, granted := 0);
        }
      } else if slot.kind == ReleaseLease {
        if status == Ok {
          lease := NO_LEASE;
        } else {
          lease := lease.(state := Failed, status := status, domainStatus := c.rejection, token := 0, granted := 0);
        }
      }
    }

    method FinalizeOperation(index: nat, c: Completion, now: Word)
      requires Valid() && index < CAPACITY
      modifies this, operations
      ensures Valid() && Abs() == Finalize(old(Abs()), index, c, now)
    {
      var slot := operations[index];
      FinalizeLease(slot, c, now);
      if slot.admitted { released := released + 1; }
      operations[index] := slot.(state := FinalState(c.status), status := FinalStatus(slot.kind, slot.request, c),
                                 domainStatus := c.rejection, linkStatus := c.transportError,
                                 payload := FinalPayload(slot.kind, slot.request, c));
      if active == index { active := NO_SLOT; }
      if slot.internal { operations[index] := EMPTY_SLOT; }
      assert operations[..] == Finalize(old(Abs()), index, c, now).slots;
    }

    /** Expire what a serialized queue has kept waiting too long. */
    method Sweep(now: Word, clocks: Clocks, ghost upgrading: bool, ghost answer: Answer, ghost w: World)
      returns (ghost v: World)
      requires Valid() && w.state == Abs() && w.owner == Sweeping(0, now)
      modifies this, operations
      ensures Valid() && v.state == Abs() && v.owner == CheckingLease(now)
      ensures Alone(w, upgrading, clocks, answer) == Alone(v, upgrading, clocks, answer)
    {
      v := w;
      for index := 0 to CAPACITY
        invariant Valid() && v.state == Abs() && v.owner == Sweeping(index, now)
        invariant Alone(w, upgrading, clocks, answer) == Alone(v, upgrading, clocks, answer)
      {
        var slot := operations[index];
        v := OwnerNext(v, upgrading, clocks(v.owner), answer);
        if slot.used && slot.state == Queued && QueueRemaining(now, slot.submittedAt, slot.timeout) == 0 {
          v := OwnerNext(v, upgrading, clocks(v.owner), answer);
          FinalizeOperation(index, EXPIRED, clocks(Expiring(index, now)));
        }
      }
      v := OwnerNext(v, upgrading, clocks(v.owner), answer);
    }

    method CheckLeaseExpiry(now: Word)
      requires Valid()
      modifies this`lease
      ensures Abs() == ExpireLease(old(Abs()), now)
    {
      if (lease.state == RenewQueued || lease.state == Renewing) && Until(now, expireAt) == 0 {
        lease := lease.(state := Expired, status := Timeout, token := 0, granted := 0);
      }
    }

    method ScheduleRenewal(now: Word, clock: Word, upgrading: bool)
      requires Valid()
      modifies this, operations
      ensures Valid()
      ensures Abs() == if RenewalDue(old(Abs()), now)
                       then Submit(old(Abs()), upgrading, AcquireLease, old(requestedTimeout),
                                   Request(old(lease).token, old(requestedTimeout), 0, 0), true, clock).state
                       else old(Abs())
    {
      if lease.state != Held || lease.token == 0 || Until(now, renewAt) != 0 { return; }
      var status, id := SubmitOperation(upgrading, AcquireLease, requestedTimeout,
                                        Request(lease.token, requestedTimeout, 0, 0), true, clock);
    }

    /** Mark the oldest queued operation as the one with the link. */
    method PickNext() returns (index: nat)
      requires Valid()
      modifies this, operations
      ensures Valid() && index == Candidate(old(Abs())) && Abs() == Pick(old(Abs()))
    {
      if active != NO_SLOT { return NO_SLOT; }
      index := FindQueuedSlot();
      if index == NO_SLOT { return; }
      active := index;
      operations[index] := operations[index].(state := LinkPending);
      var slot := operations[index];
      if slot.kind == AcquireLease {
        lease := lease.(state := if slot.internal || slot.request.leaseToken != 0 then Renewing else Acquiring);
      } else if slot.kind == ReleaseLease {
        lease := lease.(state := Releasing);
      }
    }

    /** Offer the picked operation to the link and act on its answer. */
    method Offer(index: nat, now: Word, clocks: Clocks, answer: Answer) returns (again: bool)
      requires Valid() && index < CAPACITY
      modifies this, operations
      ensures Valid() && Abs() == Offered(old(Abs()), index, now, clocks, answer)
      ensures again <==> answer == Accepted || Budget(old(Abs()), index, now) == 0
    {
      if QueueRemaining(now, operations[index].submittedAt, operations[index].timeout) == 0 {
        FinalizeOperation(index, EXPIRED, clocks(Starting(index, now)));
        return true;
      }
      if answer == Accepted {
        operations[index] := operations[index].(admitted := true);
        started := started + 1;
        return true;
      }
      active := NO_SLOT;
      operations[index] := operations[index].(state := Queued);
      assert Abs() == Requeue(old(Abs()), index);
      if answer != LinkBusy {
        FinalizeOperation(index, START_FAILED, clocks(Refusing(index)));
      }
      again := false;
    }

    method StartNext(now: Word, clocks: Clocks, answer: Answer, ghost upgrading: bool, ghost w: World) returns (again: bool)
      requires Valid() && w.state == Abs() && w.owner == Picking(now)
      modifies this, operations
      ensures Valid() && Abs() == Alone(w, upgrading, clocks, answer).state
    {
      var index := PickNext();
      ghost var v := OwnerNext(w, upgrading, clocks(w.owner), answer);
      assert Alone(w, upgrading, clocks, answer) == Alone(v, upgrading, clocks, answer);
      if index == NO_SLOT { return false; }
      AloneWhenStarting(v, upgrading, clocks, answer);
      again := Offer(index, now, clocks, answer);
    }

    method RenewOrDrop(now: Word, clocks: Clocks, upgrading: bool, ghost answer: Answer, ghost w: World)
      returns (ghost v: World)
      requires Valid() && w.state == Abs() && w.owner == CheckingRenewal(now)
      modifies this, operations
      ensures Valid() && v.state == Abs() && v.owner == Picking(now)
      ensures Alone(w, upgrading, clocks, answer) == Alone(v, upgrading, clocks, answer)
    {
      v := OwnerNext(w, upgrading, clocks(w.owner), answer);
      if upgrading {
        lease := NO_LEASE;
      } else {
        if v.owner.SubmittingRenewal? { v := OwnerNext(v, upgrading, clocks(v.owner), answer); }
        ScheduleRenewal(now, clocks(SubmittingRenewal(lease.token, requestedTimeout, now)), upgrading);
      }
    }

    /** One owner pass. Left alone it does what the interleaved model's owner does. */
    method OwnerPass(now: Word, clocks: Clocks, upgrading: bool, answer: Answer) returns (again: bool)
      requires Valid()
      modifies this, operations
      ensures Valid()
      ensures Abs() == Alone(World(old(Abs()), Sweeping(0, now), old(nextId), []), upgrading, clocks, answer).state
    {
      ghost var v := Sweep(now, clocks, upgrading, answer, World(Abs(), Sweeping(0, now), nextId, []));
      CheckLeaseExpiry(now);
      v := OwnerNext(v, upgrading, clocks(v.owner), answer);
      v := RenewOrDrop(now, clocks, upgrading, answer, v);
      again := StartNext(now, clocks, answer, upgrading, v);
    }

    method StopOwner()
      requires Valid()
      modifies this, operations
      ensures Valid() && Abs() == StopOnOwner(old(Abs()))
    {
      running := false;
      for index := 0 to CAPACITY
        invariant Valid() && Abs() == old(Abs()).(running := false, slots := operations[..])
        invariant forall k :: 0 <= k < CAPACITY ==>
                    operations[k] == if k < index then StoppedSlot(old(operations[..])[k]) else old(operations[..])[k]
      {
        var slot := operations[index];
        if slot.used && !Terminal(slot.state) && slot.state == Queued {
          operations[index] := if slot.internal then EMPTY_SLOT else slot.(state := Dropped, status := Cancelled);
        }
      }
      lease := NO_LEASE.(status := Cancelled);
      assert operations[..] == StopOnOwner(old(Abs())).slots;
    }
  }
}
