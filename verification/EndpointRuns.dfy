/** Every interleaving of producer threads with the endpoint's owner thread.
    A world holds the shared state, where the owner is in its pass, and a log of what an
    outside observer sees; an event is one critical section of one thread. */
module EndpointRuns {
  import opened Clock32
  import opened EndpointModel
  import opened EndpointInvariant

  /** Where the owner thread is. Between any two points other threads may run. */
  datatype Owner =
    | Idle
    | Sweeping(index: nat, now: Word)
    | Expiring(index: nat, now: Word)
    | CheckingLease(now: Word)
    | CheckingRenewal(now: Word)
    | SubmittingRenewal(token: nat, timeout: Word, now: Word)
    | Picking(now: Word)
    | Starting(index: nat, now: Word)
    | Refusing(index: nat)

  datatype Answer = Accepted | LinkBusy | Refused

  datatype Event =
    | Enqueue(kind: Kind, timeout: Word, request: Request, upgrading: bool, clock: Word)
    | Consume(form: TakeForm, id: nat)
    | SetRunning(running: bool)
    | BeginPass(now: Word)
    | OwnerStep(upgrading: bool, clock: Word, answer: Answer)
    | Deliver(index: nat, completion: Completion, clock: Word)
    | Stop

  datatype Entry =
    | Submitted(id: nat, submittedAt: Word, timeout: Word)
    | Admitted(id: nat, now: Word, budget: Word)
    | Finished(id: nat, kind: Kind, status: Status, token: nat, running: bool)
    | Consumed(id: nat, status: Status)
    | LeaseRanOut
    | UpgradeTookOver
    | Stopped

  datatype World = World(state: State, owner: Owner, passStart: nat, log: seq<Entry>)

  const START: World := World(INITIAL, Idle, 1, [])

  function GrantedToken(c: Completion): nat {
    if c.response.Some? && c.response.value.GrantReply? then c.response.value.token else 0
  }

  function FinishedEntry(s: State, slot: Slot, c: Completion): Entry {
    Finished(slot.id, slot.kind, FinalStatus(slot.kind, slot.request, c), GrantedToken(c), s.running)
  }

  function Finish(w: World, index: nat, c: Completion, clock: Word, then_: Owner): World
    requires index < |w.state.slots|
  {
    w.(state := Finalize(w.state, index, c, clock), owner := then_,
       log := w.log + [FinishedEntry(w.state, w.state.slots[index], c)])
  }

  function Enroll(w: World, r: Submission, submittedAt: Word, timeout: Word, then_: Owner): World {
    w.(state := r.state, owner := then_,
       log := if r.status == Ok then w.log + [Submitted(r.id, submittedAt, timeout)] else w.log)
  }

  /** The owner's next critical section. `upgrading`, `clock` and `answer` are what it reads
      from the upgrade client, the clock and the link. */
  function OwnerNext(w: World, upgrading: bool, clock: Word, answer: Answer): (v: World)
    requires Shaped(w)
    ensures Shaped(v)
  {
    var s := w.state;
    match w.owner
    case Idle => w
    case Sweeping(i, now) =>
      w.(owner := if i >= CAPACITY then CheckingLease(now)
                  else if HasExpired(s.slots[i], now) then Expiring(i, now)
                  else Sweeping(i + 1, now))
    case Expiring(i, now) => Finish(w, i, EXPIRED, clock, Sweeping(i + 1, now))
    case CheckingLease(now) =>
      w.(state := ExpireLease(s, now), owner := CheckingRenewal(now),
         log := if LeaseOverdue(s, now) then w.log + [LeaseRanOut] else w.log)
    case CheckingRenewal(now) =>
      if upgrading then w.(state := DropLease(s), owner := Picking(now), log := w.log + [UpgradeTookOver])
      else if RenewalDue(s, now) then w.(owner := SubmittingRenewal(s.lease.token, s.requestedTimeout, now))
      else w.(owner := Picking(now))
    case SubmittingRenewal(token, timeout, now) =>
      Enroll(w, Submit(s, upgrading, AcquireLease, timeout, Request(token, timeout, 0, 0), true, clock),
             clock, timeout, Picking(now))
    case Picking(now) =>
      var i := Candidate(s);
      if i == NO_SLOT then w.(owner := Idle) else w.(state := Pick(s), owner := Starting(i, now))
    case Starting(i, now) =>
      var budget := QueueRemaining(now, s.slots[i].submittedAt, s.slots[i].timeout);
      if budget == 0 then Finish(w, i, EXPIRED, clock, Idle)
      else
        (match answer
         case Accepted => w.(state := Admit(s, i), owner := Idle, log := w.log + [Admitted(s.slots[i].id, now, budget)])
         case LinkBusy => w.(state := Requeue(s, i), owner := Idle)
         case Refused => w.(state := Requeue(s, i), owner := Refusing(i)))
    case Refusing(i) => Finish(w, i, START_FAILED, clock, Idle)
  }

  /** Eight slots, and the owner only ever names one of them. */
  predicate Shaped(w: World) {
    |w.state.slots| == CAPACITY &&
    ((w.owner.Expiring? || w.owner.Starting? || w.owner.Refusing?) ==> w.owner.index < CAPACITY)
  }

  /** The link delivers a completion only between passes, and only for the RPC it admitted. */
  predicate Deliverable(w: World, index: nat) {
    w.owner.Idle? && index < |w.state.slots| && w.state.active == index && w.state.slots[index].admitted
  }

  function Next(w: World, e: Event): (v: World)
    requires Shaped(w)
    ensures Shaped(v)
  {
    var s := w.state;
    match e
    case Enqueue(kind, timeout, request, upgrading, clock) =>
      if PublicArguments(kind, timeout, request)
      then Enroll(w, Submit(s, upgrading, kind, timeout, request, false, clock), clock, timeout, w.owner)
      else w
    case Consume(form, id) =>
      var r := Take(s, form, id);
      w.(state := r.state, log := if r.state != s then w.log + [Consumed(id, r.status)] else w.log)
    case SetRunning(running) => w.(state := s.(running := running))
    case BeginPass(now) => if w.owner.Idle? then w.(owner := Sweeping(0, now), passStart := s.nextId) else w
    case OwnerStep(upgrading, clock, answer) => OwnerNext(w, upgrading, clock, answer)
    case Deliver(index, completion, clock) =>
      if Deliverable(w, index) then Finish(w, index, completion, clock, Idle) else w
    case Stop => if w.owner.Idle? then w.(state := StopOnOwner(s), log := w.log + [Stopped]) else w
  }

  // The world invariant

  predicate OwnerOk(w: World) {
    var s := w.state;
    && Shaped(w)
    && (match w.owner
        case Sweeping(i, _) => i <= CAPACITY
        case Expiring(i, now) => IsQueued(s.slots[i]) && HasExpired(s.slots[i], now)
        case SubmittingRenewal(_, timeout, _) => ValidTimeout(timeout)
        case Refusing(i) => IsQueued(s.slots[i]) && s.active == NO_SLOT
        case _ => true)
    && (if w.owner.Starting? then s.active == w.owner.index && !s.slots[w.owner.index].admitted
        else s.active < CAPACITY ==> s.slots[s.active].admitted)
  }

  predicate WorldInv(w: World) { Inv(w.state) && OwnerOk(w) }

  /** Room for one more id before the counter reaches the largest 64-bit value. */
  predicate HasRoom(w: World) { w.state.nextId < MAXIMUM_ID }

  /** Finishing a live slot leaves the owner anywhere that does not name another slot. */
  lemma FinishInv(w: World, i: nat, c: Completion, clock: Word, then_: Owner)
    requires Inv(w.state) && i < CAPACITY && IsLive(w.state.slots[i])
    requires then_.Idle? || (then_.Sweeping? && then_.index <= CAPACITY)
    requires w.state.active < CAPACITY && w.state.active != i ==> w.state.slots[w.state.active].admitted
    ensures WorldInv(Finish(w, i, c, clock, then_))
    ensures Progress(w.state, Finish(w, i, c, clock, then_).state)
  {
    FinalizeInv(w.state, i, c, clock);
  }

  lemma RenewalInv(w: World, upgrading: bool, clock: Word, answer: Answer)
    requires WorldInv(w) && HasRoom(w) && w.owner.SubmittingRenewal?
    ensures WorldInv(OwnerNext(w, upgrading, clock, answer))
    ensures Progress(w.state, OwnerNext(w, upgrading, clock, answer).state)
  {
    var timeout := w.owner.timeout;
    var request := Request(w.owner.token, timeout, 0, 0);
    var s := w.state;
    assert s.active < CAPACITY ==> SlotOk(s, s.active);
    SubmitInv(s, upgrading, AcquireLease, timeout, request, true, clock);
    SubmitKeepsOthers(s, upgrading, AcquireLease, timeout, request, true, clock);
  }

  lemma PickingInv(w: World, upgrading: bool, clock: Word, answer: Answer)
    requires WorldInv(w) && w.owner.Picking?
    ensures WorldInv(OwnerNext(w, upgrading, clock, answer))
    ensures Progress(w.state, OwnerNext(w, upgrading, clock, answer).state)
  {
    PickInv(w.state);
    if Candidate(w.state) != NO_SLOT { assert SlotOk(w.state, Candidate(w.state)); }
  }

  lemma StartingInv(w: World, upgrading: bool, clock: Word, answer: Answer)
    requires WorldInv(w) && w.owner.Starting?
    ensures WorldInv(OwnerNext(w, upgrading, clock, answer))
    ensures Progress(w.state, OwnerNext(w, upgrading, clock, answer).state)
  {
    var s, i := w.state, w.owner.index;
    assert SlotOk(s, i);
    if QueueRemaining(w.owner.now, s.slots[i].submittedAt, s.slots[i].timeout) == 0 {
      FinishInv(w, i, EXPIRED, clock, Idle);
    } else if answer == Accepted {
      AdmitInv(s, i);
    } else {
      RequeueInv(s, i);
    }
  }

  lemma ExpiringInv(w: World, upgrading: bool, clock: Word, answer: Answer)
    requires WorldInv(w) && w.owner.Expiring?
    ensures WorldInv(OwnerNext(w, upgrading, clock, answer))
    ensures Progress(w.state, OwnerNext(w, upgrading, clock, answer).state)
  {
    hide Inv, Finish, Progress;
    FinishInv(w, w.owner.index, EXPIRED, clock, Sweeping(w.owner.index + 1, w.owner.now));
  }

  lemma RefusingInv(w: World, upgrading: bool, clock: Word, answer: Answer)
    requires WorldInv(w) && w.owner.Refusing?
    ensures WorldInv(OwnerNext(w, upgrading, clock, answer))
    ensures Progress(w.state, OwnerNext(w, upgrading, clock, answer).state)
  {
    hide Inv, Finish, Progress;
    FinishInv(w, w.owner.index, START_FAILED, clock, Idle);
  }

  /** Looking and changing the lease alone. */
  lemma QuietInv(w: World, upgrading: bool, clock: Word, answer: Answer)
    requires WorldInv(w)
    requires w.owner.Idle? || w.owner.Sweeping? || w.owner.CheckingLease? || w.owner.CheckingRenewal?
    ensures WorldInv(OwnerNext(w, upgrading, clock, answer))
    ensures Progress(w.state, OwnerNext(w, upgrading, clock, answer).state)
  {
    if w.owner.CheckingLease? { LeaseStepInv(w.state, ExpireLease(w.state, w.owner.now)); }
    if w.owner.CheckingRenewal? { LeaseStepInv(w.state, DropLease(w.state)); }
  }

  lemma OwnerNextInv(w: World, upgrading: bool, clock: Word, answer: Answer)
    requires WorldInv(w) && HasRoom(w)
    ensures WorldInv(OwnerNext(w, upgrading, clock, answer))
    ensures Progress(w.state, OwnerNext(w, upgrading, clock, answer).state)
  {
    WorldIsShaped(w);
    hide *;
    match w.owner
    case Expiring(_, _) => ExpiringInv(w, upgrading, clock, answer);
    case SubmittingRenewal(_, _, _) => RenewalInv(w, upgrading, clock, answer);
    case Picking(_) => PickingInv(w, upgrading, clock, answer);
    case Starting(_, _) => StartingInv(w, upgrading, clock, answer);
    case Refusing(_) => RefusingInv(w, upgrading, clock, answer);
    case _ => QuietInv(w, upgrading, clock, answer);
  }

  lemma WorldIsShaped(w: World)
    requires WorldInv(w)
    ensures Shaped(w)
  {
  }

  lemma SubmitKeepsOthers(s: State, upgrading: bool, kind: Kind, timeout: Word, request: Request, internal: bool, now: Word)
    requires |s.slots| == CAPACITY
    ensures var t := Submit(s, upgrading, kind, timeout, request, internal, now).state;
            && t.active == s.active && |t.slots| == CAPACITY
            && forall i :: 0 <= i < CAPACITY && s.slots[i].used ==> t.slots[i] == s.slots[i]
  {
  }

  lemma TakeKeepsLive(s: State, form: TakeForm, id: nat)
    requires |s.slots| == CAPACITY
    ensures var t := Take(s, form, id).state;
            && t.active == s.active && |t.slots| == CAPACITY
            && forall i :: 0 <= i < CAPACITY && IsLive(s.slots[i]) ==> t.slots[i] == s.slots[i]
  {
  }

  /** The owner's place in its pass only depends on live slots. */
  lemma OwnerFrame(w: World, t: State)
    requires WorldInv(w)
    requires |t.slots| == CAPACITY && t.active == w.state.active
    requires forall i :: 0 <= i < CAPACITY && IsLive(w.state.slots[i]) ==> t.slots[i] == w.state.slots[i]
    ensures OwnerOk(w.(state := t))
  {
    assert t.active < CAPACITY ==> SlotOk(w.state, t.active);
  }

  lemma EnqueueInv(w: World, kind: Kind, timeout: Word, request: Request, upgrading: bool, clock: Word)
    requires WorldInv(w) && HasRoom(w) && PublicArguments(kind, timeout, request)
    ensures var t := Submit(w.state, upgrading, kind, timeout, request, false, clock).state;
            WorldInv(w.(state := t)) && Progress(w.state, t)
  {
    SubmitInv(w.state, upgrading, kind, timeout, request, false, clock);
    SubmitKeepsOthers(w.state, upgrading, kind, timeout, request, false, clock);
    OwnerFrame(w, Submit(w.state, upgrading, kind, timeout, request, false, clock).state);
  }

  lemma ConsumeInv(w: World, form: TakeForm, id: nat)
    requires WorldInv(w)
    ensures WorldInv(w.(state := Take(w.state, form, id).state))
    ensures Progress(w.state, Take(w.state, form, id).state)
  {
    TakeInv(w.state, form, id);
    TakeKeepsLive(w.state, form, id);
    OwnerFrame(w, Take(w.state, form, id).state);
  }

  lemma DeliverInv(w: World, index: nat, c: Completion, clock: Word)
    requires WorldInv(w) && Deliverable(w, index)
    ensures WorldInv(Finish(w, index, c, clock, Idle))
    ensures Progress(w.state, Finish(w, index, c, clock, Idle).state)
  {
    assert SlotOk(w.state, index);
    FinishInv(w, index, c, clock, Idle);
  }

  lemma EnqueuedInv(w: World, e: Event)
    requires WorldInv(w) && HasRoom(w) && e.Enqueue?
    ensures WorldInv(Next(w, e)) && Progress(w.state, Next(w, e).state)
  {
    if PublicArguments(e.kind, e.timeout, e.request) {
      EnqueueInv(w, e.kind, e.timeout, e.request, e.upgrading, e.clock);
      hide Submit, Inv, Progress;
      SameOwner(w, Next(w, e));
    } else {
      assert Next(w, e) == w;
    }
  }

  /** The invariant does not look at the log. */
  lemma SameOwner(w: World, v: World)
    requires WorldInv(w.(state := v.state)) && v.owner == w.owner
    ensures WorldInv(v)
  {
  }

  lemma ConsumedInv(w: World, e: Event)
    requires WorldInv(w) && e.Consume?
    ensures WorldInv(Next(w, e)) && Progress(w.state, Next(w, e).state)
  {
    ConsumeInv(w, e.form, e.id);
    hide Take, Inv, Progress;
    SameOwner(w, Next(w, e));
  }

  lemma DeliveredInv(w: World, e: Event)
    requires WorldInv(w) && e.Deliver?
    ensures WorldInv(Next(w, e)) && Progress(w.state, Next(w, e).state)
  {
    if Deliverable(w, e.index) {
      DeliverInv(w, e.index, e.completion, e.clock);
      hide Finish, Inv, Progress;
    } else {
      assert Next(w, e) == w;
    }
  }

  lemma StoppedInv(w: World, e: Event)
    requires WorldInv(w) && e.Stop?
    ensures WorldInv(Next(w, e)) && Progress(w.state, Next(w, e).state)
  {
    hide StopOnOwner;
    if w.owner.Idle? { StopInv(w.state); } else { assert Next(w, e) == w; }
  }

  lemma RunningInv(w: World, e: Event)
    requires WorldInv(w) && (e.SetRunning? || e.BeginPass?)
    ensures WorldInv(Next(w, e)) && Progress(w.state, Next(w, e).state)
  {
    if e.SetRunning? {
      var t := w.state.(running := e.running);
      forall i | 0 <= i < CAPACITY ensures SlotOk(t, i) { assert SlotOk(w.state, i); }
    }
  }

  /** One step of any thread keeps the invariant and the table's progress. */
  lemma NextInv(w: World, e: Event)
    requires WorldInv(w) && HasRoom(w)
    ensures WorldInv(Next(w, e)) && Progress(w.state, Next(w, e).state)
  {
    WorldIsShaped(w);
    hide WorldInv, OwnerNext, Progress, HasRoom, Shaped;
    match e
    case Enqueue(_, _, _, _, _) => EnqueuedInv(w, e);
    case Consume(_, _) => ConsumedInv(w, e);
    case OwnerStep(upgrading, clock, answer) => OwnerNextInv(w, upgrading, clock, answer);
    case Deliver(_, _, _) => DeliveredInv(w, e);
    case Stop => StoppedInv(w, e);
    case _ => RunningInv(w, e);
  }
}
