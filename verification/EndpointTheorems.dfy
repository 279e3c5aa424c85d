/** What holds of the endpoint over every run: of any length short of 2^64 - 1 critical
    sections, of any threads, in any order. */
module EndpointTheorems {
  import opened Clock32
  import opened EndpointModel
  import opened EndpointInvariant
  import opened EndpointRuns

  // Lease history

  /** The token an observer of the log would say is in force; 0 for none. */
  function Standing(log: seq<Entry>): nat {
    if log == [] then 0
    else
      match log[|log| - 1]
      case Finished(_, kind, status, token, running) =>
        if !running then 0
        else if kind == AcquireLease then (if status == Ok then token else 0)
        else if kind == ReleaseLease then 0
        else Standing(log[..|log| - 1])
      case LeaseRanOut => 0
      case UpgradeTookOver => 0
      case Stopped => 0
      case _ => Standing(log[..|log| - 1])
  }

  /** A successful acquire or renew. */
  predicate Grants(entry: Entry) {
    entry.Finished? && entry.running && entry.kind == AcquireLease && entry.status == Ok
  }

  /** Anything after which an earlier grant must not be used. */
  predicate Ends(entry: Entry) {
    entry.LeaseRanOut? || entry.UpgradeTookOver? || entry.Stopped?
    || (entry.Finished? && (!entry.running || entry.kind == ReleaseLease || entry.kind == AcquireLease))
  }

  predicate LatestGrant(log: seq<Entry>, k: nat, token: nat) {
    && k < |log| && Grants(log[k]) && log[k].token == token
    && forall j :: k < j < |log| ==> !Ends(log[j])
  }

  lemma {:induction false} StandingIsLatestGrant(log: seq<Entry>)
    requires Standing(log) != 0
    ensures exists k :: LatestGrant(log, k, Standing(log))
  {
    var n := |log| - 1;
    if Grants(log[n]) {
      assert LatestGrant(log, n, Standing(log));
    } else {
      StandingIsLatestGrant(log[..n]);
      var k :| LatestGrant(log[..n], k, Standing(log));
      assert LatestGrant(log, k, Standing(log));
    }
  }

  lemma {:induction false} LatestGrantStands(log: seq<Entry>, k: nat, token: nat)
    requires LatestGrant(log, k, token)
    ensures Standing(log) == token
  {
    var n := |log| - 1;
    if k < n {
      assert LatestGrant(log[..n], k, token);
      LatestGrantStands(log[..n], k, token);
    }
  }

  lemma StandingOf(log: seq<Entry>, entry: Entry)
    ensures Standing(log + [entry]) ==
              (if Grants(entry) then entry.token else if Ends(entry) then 0 else Standing(log))
  {
    assert (log + [entry])[..|log|] == log;
  }

  predicate LeaseTold(w: World) { w.state.lease.token == Standing(w.log) }

  lemma FinishTold(w: World, i: nat, c: Completion, clock: Word, then_: Owner)
    requires LeaseTold(w) && i < |w.state.slots|
    ensures LeaseTold(Finish(w, i, c, clock, then_))
  {
    StandingOf(w.log, FinishedEntry(w.state, w.state.slots[i], c));
  }

  lemma SubmitToken(s: State, upgrading: bool, kind: Kind, timeout: Word, request: Request, internal: bool, now: Word)
    requires |s.slots| == CAPACITY
    ensures Submit(s, upgrading, kind, timeout, request, internal, now).state.lease.token == s.lease.token
  {
  }

  lemma EnrollTold(w: World, r: Submission, submittedAt: Word, timeout: Word, then_: Owner)
    requires LeaseTold(w) && r.state.lease.token == w.state.lease.token
    ensures LeaseTold(Enroll(w, r, submittedAt, timeout, then_))
  {
    StandingOf(w.log, Submitted(r.id, submittedAt, timeout));
  }

  lemma StartingTold(w: World, upgrading: bool, clock: Word, answer: Answer)
    requires WorldInv(w) && LeaseTold(w) && w.owner.Starting?
    ensures LeaseTold(OwnerNext(w, upgrading, clock, answer))
  {
    var slot := w.state.slots[w.owner.index];
    var budget := QueueRemaining(w.owner.now, slot.submittedAt, slot.timeout);
    if budget == 0 {
      FinishTold(w, w.owner.index, EXPIRED, clock, Idle);
    } else {
      StandingOf(w.log, Admitted(slot.id, w.owner.now, budget));
    }
  }

  lemma OwnerTold(w: World, upgrading: bool, clock: Word, answer: Answer)
    requires WorldInv(w) && LeaseTold(w)
    ensures LeaseTold(OwnerNext(w, upgrading, clock, answer))
  {
    match w.owner
    case Expiring(i, now) => FinishTold(w, i, EXPIRED, clock, Sweeping(i + 1, now));
    case CheckingLease(_) => StandingOf(w.log, LeaseRanOut);
    case CheckingRenewal(_) => StandingOf(w.log, UpgradeTookOver);
    case SubmittingRenewal(token, timeout, now) =>
      SubmitToken(w.state, upgrading, AcquireLease, timeout, Request(token, timeout, 0, 0), true, clock);
      EnrollTold(w, Submit(w.state, upgrading, AcquireLease, timeout, Request(token, timeout, 0, 0), true, clock),
                 clock, timeout, Picking(now));
    case Starting(_, _) => StartingTold(w, upgrading, clock, answer);
    case Refusing(i) => FinishTold(w, i, START_FAILED, clock, Idle);
    case _ =>
  }

  /** The lease token in the shared state is, at every moment, the one the log tells of. */
  lemma NextTold(w: World, e: Event)
    requires WorldInv(w) && LeaseTold(w)
    ensures LeaseTold(Next(w, e))
  {
    match e
    case Enqueue(kind, timeout, request, upgrading, clock) =>
      SubmitToken(w.state, upgrading, kind, timeout, request, false, clock);
      EnrollTold(w, Submit(w.state, upgrading, kind, timeout, request, false, clock), clock, timeout, w.owner);
    case Consume(form, id) => StandingOf(w.log, Consumed(id, Take(w.state, form, id).status));
    case OwnerStep(upgrading, clock, answer) => OwnerTold(w, upgrading, clock, answer);
    case Deliver(index, c, clock) => if Deliverable(w, index) { FinishTold(w, index, c, clock, Idle); }
    case Stop => StandingOf(w.log, Stopped);
    case _ =>
  }

  // Order of admission

  function LastAdmitted(log: seq<Entry>): nat {
    if log == [] then 0
    else if log[|log| - 1].Admitted? then log[|log| - 1].id
    else LastAdmitted(log[..|log| - 1])
  }

  predicate AdmissionsIncrease(log: seq<Entry>) {
    forall j, k :: 0 <= j < k < |log| && log[j].Admitted? && log[k].Admitted? ==> log[j].id < log[k].id
  }

  predicate InOrder(w: World)
    requires Shaped(w)
  {
    var s := w.state;
    && AdmissionsIncrease(w.log)
    && (forall k :: 0 <= k < |w.log| && w.log[k].Admitted? ==> w.log[k].id <= LastAdmitted(w.log))
    && LastAdmitted(w.log) < s.nextId
    && (forall i :: 0 <= i < CAPACITY && IsQueued(s.slots[i]) ==> LastAdmitted(w.log) < s.slots[i].id)
    && (w.owner.Starting? ==>
          && LastAdmitted(w.log) < s.slots[w.owner.index].id
          && forall i :: 0 <= i < CAPACITY && IsQueued(s.slots[i]) ==> s.slots[w.owner.index].id < s.slots[i].id)
  }

  lemma LastAdmittedOf(log: seq<Entry>, entry: Entry)
    ensures LastAdmitted(log + [entry]) == if entry.Admitted? then entry.id else LastAdmitted(log)
  {
    assert (log + [entry])[..|log|] == log;
  }

  /** A step that admits nothing and queues nothing old keeps the order. */
  lemma OrderFrame(w: World, v: World)
    requires WorldInv(w) && WorldInv(v) && InOrder(w)
    requires v.log == w.log || (|v.log| == |w.log| + 1 && v.log == w.log + [v.log[|w.log|]] && !v.log[|w.log|].Admitted?)
    requires w.state.nextId <= v.state.nextId
    requires forall i :: 0 <= i < CAPACITY && IsQueued(v.state.slots[i]) ==>
               (IsQueued(w.state.slots[i]) && v.state.slots[i].id == w.state.slots[i].id)
               || v.state.slots[i].id == w.state.nextId
               || (w.owner.Starting? && w.owner.index == i && v.state.slots[i].id == w.state.slots[i].id)
    requires v.owner.Starting? ==> w.owner == v.owner && v.state.slots[v.owner.index] == w.state.slots[v.owner.index]
    ensures InOrder(v)
  {
    if v.log != w.log { LastAdmittedOf(w.log, v.log[|w.log|]); }
    if w.owner.Starting? { assert SlotOk(w.state, w.owner.index); }
    if v.owner.Starting? { assert SlotOk(v.state, v.owner.index); }
  }

  lemma PickOrder(w: World, now: Word)
    requires WorldInv(w) && InOrder(w) && w.owner == Picking(now) && Candidate(w.state) != NO_SLOT
    ensures InOrder(w.(state := Pick(w.state), owner := Starting(Candidate(w.state), now)))
  {
    var s := w.state;
    var i := Candidate(s);
    forall k | 0 <= k < CAPACITY && IsQueued(Pick(s).slots[k]) ensures s.slots[i].id < Pick(s).slots[k].id {
      assert k != i;
      assert DistinctIds(s.slots);
      assert s.slots[k].id != s.slots[i].id;
    }
  }

  lemma AdmitOrder(w: World, upgrading: bool, clock: Word)
    requires WorldInv(w) && InOrder(w) && w.owner.Starting?
    requires QueueRemaining(w.owner.now, w.state.slots[w.owner.index].submittedAt, w.state.slots[w.owner.index].timeout) != 0
    ensures InOrder(OwnerNext(w, upgrading, clock, Accepted))
  {
    var v := OwnerNext(w, upgrading, clock, Accepted);
    assert SlotOk(w.state, w.owner.index);
    LastAdmittedOf(w.log, v.log[|w.log|]);
    forall i | 0 <= i < CAPACITY && IsQueued(v.state.slots[i]) ensures LastAdmitted(v.log) < v.state.slots[i].id {
      assert v.state.slots[i] == w.state.slots[i];
    }
  }

  lemma FinishOrder(w: World, i: nat, c: Completion, clock: Word, then_: Owner)
    requires WorldInv(w) && InOrder(w) && i < CAPACITY && IsLive(w.state.slots[i])
    requires then_.Idle? || then_.Sweeping?
    requires WorldInv(Finish(w, i, c, clock, then_))
    ensures InOrder(Finish(w, i, c, clock, then_))
  {
    var v := Finish(w, i, c, clock, then_);
    assert forall k :: 0 <= k < CAPACITY && k != i ==> v.state.slots[k] == w.state.slots[k];
    OrderFrame(w, v);
  }

  lemma SubmissionOrder(w: World, upgrading: bool, kind: Kind, timeout: Word, request: Request, internal: bool,
                        clock: Word, then_: Owner)
    requires WorldInv(w) && InOrder(w) && HasRoom(w)
    requires then_ == w.owner || then_.Picking?
    requires WorldInv(Enroll(w, Submit(w.state, upgrading, kind, timeout, request, internal, clock), clock, timeout, then_))
    ensures InOrder(Enroll(w, Submit(w.state, upgrading, kind, timeout, request, internal, clock), clock, timeout, then_))
  {
    var r := Submit(w.state, upgrading, kind, timeout, request, internal, clock);
    if w.owner.Starting? { assert SlotOk(w.state, w.owner.index); }
    SubmitKeepsOthers(w.state, upgrading, kind, timeout, request, internal, clock);
    OrderFrame(w, Enroll(w, r, clock, timeout, then_));
  }

  lemma ExpiringOrder(w: World, upgrading: bool, clock: Word, answer: Answer)
    requires WorldInv(w) && InOrder(w) && (w.owner.Expiring? || w.owner.Refusing?)
    requires WorldInv(OwnerNext(w, upgrading, clock, answer))
    ensures InOrder(OwnerNext(w, upgrading, clock, answer))
  {
    hide InOrder, Inv, Finish;
    if w.owner.Expiring? {
      FinishOrder(w, w.owner.index, EXPIRED, clock, Sweeping(w.owner.index + 1, w.owner.now));
    } else {
      FinishOrder(w, w.owner.index, START_FAILED, clock, Idle);
    }
  }

  lemma RenewalOrder(w: World, upgrading: bool, clock: Word, answer: Answer)
    requires WorldInv(w) && InOrder(w) && HasRoom(w) && w.owner.SubmittingRenewal?
    requires WorldInv(OwnerNext(w, upgrading, clock, answer))
    ensures InOrder(OwnerNext(w, upgrading, clock, answer))
  {
    hide InOrder, WorldInv, Submit, Enroll;
    var o := w.owner;
    SubmissionOrder(w, upgrading, AcquireLease, o.timeout, Request(o.token, o.timeout, 0, 0), true, clock, Picking(o.now));
  }

  /** Looking and changing the lease alone. */
  lemma QuietOrder(w: World, upgrading: bool, clock: Word, answer: Answer)
    requires WorldInv(w) && InOrder(w) && WorldInv(OwnerNext(w, upgrading, clock, answer))
    requires w.owner.Idle? || w.owner.Sweeping? || w.owner.CheckingLease? || w.owner.CheckingRenewal?
          || (w.owner.Picking? && Candidate(w.state) == NO_SLOT)
    ensures InOrder(OwnerNext(w, upgrading, clock, answer))
  {
    hide InOrder, WorldInv, Candidate;
    OrderFrame(w, OwnerNext(w, upgrading, clock, answer));
  }

  lemma PickingOrder(w: World, upgrading: bool, clock: Word, answer: Answer)
    requires WorldInv(w) && InOrder(w) && w.owner.Picking? && WorldInv(OwnerNext(w, upgrading, clock, answer))
    ensures InOrder(OwnerNext(w, upgrading, clock, answer))
  {
    hide InOrder, Inv, Candidate, Pick;
    if Candidate(w.state) == NO_SLOT { QuietOrder(w, upgrading, clock, answer); } else { PickOrder(w, w.owner.now); }
  }

  lemma OwnerOrder(w: World, upgrading: bool, clock: Word, answer: Answer)
    requires WorldInv(w) && HasRoom(w) && InOrder(w)
    ensures InOrder(OwnerNext(w, upgrading, clock, answer))
  {
    OwnerNextInv(w, upgrading, clock, answer);
    hide InOrder, WorldInv, OwnerNext, HasRoom;
    match w.owner
    case Expiring(_, _) => ExpiringOrder(w, upgrading, clock, answer);
    case Refusing(_) => ExpiringOrder(w, upgrading, clock, answer);
    case SubmittingRenewal(_, _, _) => RenewalOrder(w, upgrading, clock, answer);
    case Picking(_) => PickingOrder(w, upgrading, clock, answer);
    case Starting(_, _) => StartingOrder(w, upgrading, clock, answer);
    case _ => QuietOrder(w, upgrading, clock, answer);
  }

  lemma StartingOrder(w: World, upgrading: bool, clock: Word, answer: Answer)
    requires WorldInv(w) && InOrder(w) && w.owner.Starting?
    requires WorldInv(OwnerNext(w, upgrading, clock, answer))
    ensures InOrder(OwnerNext(w, upgrading, clock, answer))
  {
    var i := w.owner.index;
    assert SlotOk(w.state, i);
    if QueueRemaining(w.owner.now, w.state.slots[i].submittedAt, w.state.slots[i].timeout) == 0 {
      FinishOrder(w, i, EXPIRED, clock, Idle);
    } else if answer == Accepted {
      AdmitOrder(w, upgrading, clock);
    } else {
      OrderFrame(w, OwnerNext(w, upgrading, clock, answer));
    }
  }

  lemma ConsumeOrder(w: World, form: TakeForm, id: nat)
    requires WorldInv(w) && InOrder(w) && WorldInv(Next(w, Consume(form, id)))
    ensures InOrder(Next(w, Consume(form, id)))
  {
    if w.owner.Starting? { assert SlotOk(w.state, w.owner.index); }
    TakeKeepsLive(w.state, form, id);
    hide InOrder, Inv;
    OrderFrame(w, Next(w, Consume(form, id)));
  }

  lemma EnqueueOrder(w: World, e: Event)
    requires WorldInv(w) && InOrder(w) && HasRoom(w) && e.Enqueue? && WorldInv(Next(w, e))
    ensures InOrder(Next(w, e))
  {
    hide InOrder, WorldInv, Submit, Enroll, PublicArguments;
    if PublicArguments(e.kind, e.timeout, e.request) {
      SubmissionOrder(w, e.upgrading, e.kind, e.timeout, e.request, false, e.clock, w.owner);
    }
  }

  lemma DeliverOrder(w: World, e: Event)
    requires WorldInv(w) && InOrder(w) && e.Deliver? && WorldInv(Next(w, e))
    ensures InOrder(Next(w, e))
  {
    if Deliverable(w, e.index) {
      assert SlotOk(w.state, e.index);
      hide InOrder, WorldInv, Finish;
      FinishOrder(w, e.index, e.completion, e.clock, Idle);
    }
  }

  lemma OtherOrder(w: World, e: Event)
    requires WorldInv(w) && InOrder(w) && (e.Stop? || e.SetRunning? || e.BeginPass?) && WorldInv(Next(w, e))
    ensures InOrder(Next(w, e))
  {
    hide InOrder, WorldInv;
    OrderFrame(w, Next(w, e));
  }

  /** Whatever any thread does, what waits is younger than what was admitted. */
  lemma NextOrder(w: World, e: Event)
    requires WorldInv(w) && HasRoom(w) && InOrder(w)
    ensures InOrder(Next(w, e))
  {
    NextInv(w, e);
    hide InOrder, WorldInv, HasRoom, OwnerNext;
    match e
    case Enqueue(_, _, _, _, _) => EnqueueOrder(w, e);
    case Consume(form, id) => ConsumeOrder(w, form, id);
    case OwnerStep(upgrading, clock, answer) => OwnerOrder(w, upgrading, clock, answer);
    case Deliver(_, _, _) => DeliverOrder(w, e);
    case _ => OtherOrder(w, e);
  }
}
