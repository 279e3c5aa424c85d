/** Budgets, consumption and the expiry sweep over every run, and the theorems that put
    the per-step results together. */
module EndpointHistory {
  import opened Clock32
  import opened EndpointModel
  import opened EndpointInvariant
  import opened EndpointRuns
  import opened EndpointTheorems

  predicate SameOperation(x: Slot, y: Slot) {
    x.id == y.id && x.submittedAt == y.submittedAt && x.timeout == y.timeout
  }

  function Origin(x: Slot): Entry { Submitted(x.id, x.submittedAt, x.timeout) }

  predicate EntryFits(w: World, v: World, entry: Entry)
    requires |w.state.slots| == CAPACITY == |v.state.slots|
  {
    match entry
    case Admitted(id, now, budget) =>
      exists i :: 0 <= i < CAPACITY && IsLive(w.state.slots[i]) && w.state.slots[i].id == id
        && 0 < budget == QueueRemaining(now, w.state.slots[i].submittedAt, w.state.slots[i].timeout)
    case Consumed(id, _) =>
      exists i :: 0 <= i < CAPACITY && w.state.slots[i].used && w.state.slots[i].id == id && !v.state.slots[i].used
    case _ => true
  }

  /** What the log and the table may look like after one step. */
  predicate Shape(w: World, v: World) {
    && |w.state.slots| == CAPACITY == |v.state.slots|
    && (v.log == w.log ||
        (|v.log| == |w.log| + 1 && v.log == w.log + [v.log[|w.log|]] && EntryFits(w, v, v.log[|w.log|])))
    && (forall i :: 0 <= i < CAPACITY && IsLive(v.state.slots[i]) ==>
          (IsLive(w.state.slots[i]) && SameOperation(w.state.slots[i], v.state.slots[i]))
          || (|v.log| == |w.log| + 1 && v.log[|w.log|] == Origin(v.state.slots[i])))
    && w.state.nextId <= v.state.nextId
    && (forall i :: 0 <= i < CAPACITY && v.state.slots[i].used ==>
          (w.state.slots[i].used && w.state.slots[i].id == v.state.slots[i].id)
          || w.state.nextId == v.state.slots[i].id < v.state.nextId)
  }

  lemma FinishShape(w: World, i: nat, c: Completion, clock: Word, then_: Owner)
    requires Inv(w.state) && i < CAPACITY && IsLive(w.state.slots[i])
    ensures Shape(w, Finish(w, i, c, clock, then_))
  {
  }

  lemma EnrollShape(w: World, upgrading: bool, kind: Kind, timeout: Word, request: Request, internal: bool,
                    clock: Word, then_: Owner)
    requires Inv(w.state) && HasRoom(w)
    ensures Shape(w, Enroll(w, Submit(w.state, upgrading, kind, timeout, request, internal, clock), clock, timeout, then_))
  {
  }

  lemma ConsumeShape(w: World, form: TakeForm, id: nat)
    requires Inv(w.state) && OwnerOk(w)
    ensures Shape(w, Next(w, Consume(form, id)))
  {
    var r, i := Take(w.state, form, id), FindSlot(w.state.slots, id, 0);
    if r.state != w.state {
      assert EntryFits(w, Next(w, Consume(form, id)), Consumed(id, r.status)) by {
        assert w.state.slots[i].used && w.state.slots[i].id == id && !r.state.slots[i].used;
      }
    }
  }

  lemma StartingShape(w: World, upgrading: bool, clock: Word, answer: Answer)
    requires WorldInv(w) && w.owner.Starting?
    ensures Shape(w, OwnerNext(w, upgrading, clock, answer))
  {
    var i := w.owner.index;
    assert SlotOk(w.state, i);
    if QueueRemaining(w.owner.now, w.state.slots[i].submittedAt, w.state.slots[i].timeout) == 0 {
      FinishShape(w, i, EXPIRED, clock, Idle);
    }
  }

  lemma ExpiringShape(w: World, upgrading: bool, clock: Word, answer: Answer)
    requires WorldInv(w) && (w.owner.Expiring? || w.owner.Refusing?)
    ensures Shape(w, OwnerNext(w, upgrading, clock, answer))
  {
    hide Shape, Inv, Finish;
    if w.owner.Expiring? {
      FinishShape(w, w.owner.index, EXPIRED, clock, Sweeping(w.owner.index + 1, w.owner.now));
    } else {
      FinishShape(w, w.owner.index, START_FAILED, clock, Idle);
    }
  }

  lemma RenewalShape(w: World, upgrading: bool, clock: Word, answer: Answer)
    requires WorldInv(w) && HasRoom(w) && w.owner.SubmittingRenewal?
    ensures Shape(w, OwnerNext(w, upgrading, clock, answer))
  {
    hide Shape, Inv, Submit, Enroll;
    var o := w.owner;
    EnrollShape(w, upgrading, AcquireLease, o.timeout, Request(o.token, o.timeout, 0, 0), true, clock, Picking(o.now));
  }

  lemma PickingShape(w: World, upgrading: bool, clock: Word, answer: Answer)
    requires WorldInv(w) && w.owner.Picking?
    ensures Shape(w, OwnerNext(w, upgrading, clock, answer))
  {
    if Candidate(w.state) != NO_SLOT { assert SlotOk(w.state, Candidate(w.state)); }
  }

  lemma QuietShape(w: World, upgrading: bool, clock: Word, answer: Answer)
    requires WorldInv(w)
    requires w.owner.Idle? || w.owner.Sweeping? || w.owner.CheckingLease? || w.owner.CheckingRenewal?
    ensures Shape(w, OwnerNext(w, upgrading, clock, answer))
  {
  }

  lemma OwnerShape(w: World, upgrading: bool, clock: Word, answer: Answer)
    requires WorldInv(w) && HasRoom(w)
    ensures Shape(w, OwnerNext(w, upgrading, clock, answer))
  {
    WorldIsShaped(w);
    hide *;
    match w.owner
    case Expiring(_, _) => ExpiringShape(w, upgrading, clock, answer);
    case Refusing(_) => ExpiringShape(w, upgrading, clock, answer);
    case SubmittingRenewal(_, _, _) => RenewalShape(w, upgrading, clock, answer);
    case Starting(_, _) => StartingShape(w, upgrading, clock, answer);
    case Picking(_) => PickingShape(w, upgrading, clock, answer);
    case _ => QuietShape(w, upgrading, clock, answer);
  }

  lemma EnqueueShape(w: World, e: Event)
    requires WorldInv(w) && HasRoom(w) && e.Enqueue?
    ensures Shape(w, Next(w, e))
  {
    EnrollShape(w, e.upgrading, e.kind, e.timeout, e.request, false, e.clock, w.owner);
    hide Submit, Enroll;
  }

  lemma DeliverShape(w: World, e: Event)
    requires WorldInv(w) && e.Deliver?
    ensures Shape(w, Next(w, e))
  {
    if Deliverable(w, e.index) {
      assert SlotOk(w.state, e.index);
      FinishShape(w, e.index, e.completion, e.clock, Idle);
      hide Finish, Inv;
    }
  }

  lemma OtherShape(w: World, e: Event)
    requires WorldInv(w) && (e.Stop? || e.SetRunning? || e.BeginPass?)
    ensures Shape(w, Next(w, e))
  {
  }

  lemma NextShape(w: World, e: Event)
    requires WorldInv(w) && HasRoom(w)
    ensures Shape(w, Next(w, e))
  {
    WorldIsShaped(w);
    hide WorldInv, OwnerNext, Shape, HasRoom, Shaped;
    match e
    case Enqueue(_, _, _, _, _) => EnqueueShape(w, e);
    case Consume(form, id) => ConsumedShape(w, e);
    case OwnerStep(upgrading, clock, answer) => OwnerShape(w, upgrading, clock, answer);
    case Deliver(_, _, _) => DeliverShape(w, e);
    case _ => OtherShape(w, e);
  }

  lemma ConsumedShape(w: World, e: Event)
    requires WorldInv(w) && e.Consume?
    ensures Shape(w, Next(w, e))
  {
    ConsumeShape(w, e.form, e.id);
    hide *;
  }

  // Budgets

  /** The submission that pays for an admission: what is left of its timeout is the budget. */
  predicate Funds(submission: Entry, admission: Entry) {
    && submission.Submitted? && admission.Admitted? && submission.id == admission.id
    && 0 < admission.budget == QueueRemaining(admission.now, submission.submittedAt, submission.timeout)
  }

  predicate Budgeted(log: seq<Entry>) {
    forall k :: 0 <= k < |log| && log[k].Admitted? ==> exists j :: 0 <= j < k && Funds(log[j], log[k])
  }

  predicate Funded(w: World) {
    && Budgeted(w.log)
    && forall i :: 0 <= i < |w.state.slots| && IsLive(w.state.slots[i]) ==> Origin(w.state.slots[i]) in w.log
  }

  lemma NextFunded(w: World, v: World)
    requires Shape(w, v) && Funded(w)
    ensures Funded(v)
  {
    forall i | 0 <= i < CAPACITY && IsLive(v.state.slots[i]) ensures Origin(v.state.slots[i]) in v.log {
      if IsLive(w.state.slots[i]) && SameOperation(w.state.slots[i], v.state.slots[i]) {
        assert Origin(w.state.slots[i]) in w.log;
      }
    }
    forall k | 0 <= k < |v.log| && v.log[k].Admitted? ensures exists j :: 0 <= j < k && Funds(v.log[j], v.log[k]) {
      if k < |w.log| {
        var j :| 0 <= j < k && Funds(w.log[j], w.log[k]);
        assert Funds(v.log[j], v.log[k]);
      } else {
        var i :| 0 <= i < CAPACITY && IsLive(w.state.slots[i]) && w.state.slots[i].id == v.log[k].id
          && 0 < v.log[k].budget
             == QueueRemaining(v.log[k].now, w.state.slots[i].submittedAt, w.state.slots[i].timeout);
        var j :| 0 <= j < |w.log| && w.log[j] == Origin(w.state.slots[i]);
        assert Funds(v.log[j], v.log[k]);
      }
    }
  }

  /** In true time a funded admission never lets the link run past the caller's deadline. */
  lemma BudgetEndsByDeadline(submission: Entry, admission: Entry, submittedAt: int, now: int)
    requires Funds(submission, admission)
    requires Reading(submittedAt) == submission.submittedAt && Reading(now) == admission.now
    requires -HALF <= now - submittedAt < HALF
    ensures submittedAt <= now ==> now + admission.budget == submittedAt + submission.timeout
    ensures now < submittedAt ==> admission.budget == submission.timeout
  {
    QueueRemainingRefines(now, submittedAt, submission.timeout);
  }

  // Consumption

  predicate ConsumptionsDiffer(log: seq<Entry>) {
    forall j, k :: 0 <= j < k < |log| && log[j].Consumed? && log[k].Consumed? ==> log[j].id != log[k].id
  }

  predicate Gone(s: State, id: nat) { forall i :: 0 <= i < |s.slots| && s.slots[i].used ==> s.slots[i].id != id }

  predicate ConsumedOnce(w: World) {
    && ConsumptionsDiffer(w.log)
    && forall k :: 0 <= k < |w.log| && w.log[k].Consumed? ==> w.log[k].id < w.state.nextId && Gone(w.state, w.log[k].id)
  }

  lemma GoneStays(w: World, v: World, id: nat)
    requires Shape(w, v) && id < w.state.nextId && Gone(w.state, id)
    ensures Gone(v.state, id)
  {
  }

  lemma ConsumptionFrees(w: World, v: World, id: nat, status: Status)
    requires Inv(w.state) && Shape(w, v) && EntryFits(w, v, Consumed(id, status))
    ensures id < w.state.nextId && !Gone(w.state, id) && Gone(v.state, id)
  {
    var i :| 0 <= i < CAPACITY && w.state.slots[i].used && w.state.slots[i].id == id && !v.state.slots[i].used;
    assert SlotOk(w.state, i);
    forall n | 0 <= n < CAPACITY && v.state.slots[n].used ensures v.state.slots[n].id != id {
      assert DistinctIds(w.state.slots);
    }
  }

  lemma NextConsumed(w: World, v: World)
    requires Shape(w, v) && Inv(w.state) && ConsumedOnce(w)
    ensures ConsumedOnce(v)
  {
    var n := |w.log|;
    forall k | 0 <= k < n && w.log[k].Consumed? ensures Gone(v.state, w.log[k].id) {
      GoneStays(w, v, w.log[k].id);
    }
    if |v.log| > n && v.log[n].Consumed? {
      ConsumptionFrees(w, v, v.log[n].id, v.log[n].status);
    }
  }

  // The expiry sweep

  /** No operation queued before the pass began, among the first `n`, has run out of time. */
  predicate Clean(w: World, n: nat, now: Word) {
    forall j :: 0 <= j < n <= |w.state.slots| && w.state.slots[j].id < w.passStart ==> !HasExpired(w.state.slots[j], now)
  }

  predicate Swept(w: World) {
    && w.passStart <= w.state.nextId
    && match w.owner
       case Idle => true
       case Sweeping(i, now) => Clean(w, i, now)
       case Expiring(i, now) => Clean(w, i, now)
       case CheckingLease(now) => Clean(w, CAPACITY, now)
       case CheckingRenewal(now) => Clean(w, CAPACITY, now)
       case SubmittingRenewal(_, _, now) => Clean(w, CAPACITY, now)
       case Picking(now) => Clean(w, CAPACITY, now)
       case Starting(i, now) =>
         i < |w.state.slots| ==> w.state.slots[i].id < w.passStart ==>
           QueueRemaining(now, w.state.slots[i].submittedAt, w.state.slots[i].timeout) > 0
       case Refusing(_) => true
  }

  /** Steps of other threads do not undo the sweep: what they queue is younger than the pass. */
  lemma SweptFrame(w: World, v: World)
    requires WorldInv(w) && Swept(w)
    requires |v.state.slots| == CAPACITY && v.owner == w.owner && v.passStart == w.passStart
    requires w.state.nextId <= v.state.nextId
    requires forall i :: 0 <= i < CAPACITY ==>
               v.state.slots[i] == w.state.slots[i] || v.state.slots[i].id == w.state.nextId || !IsLive(v.state.slots[i])
    requires w.owner.Starting? ==> v.state.slots[w.owner.index] == w.state.slots[w.owner.index]
    ensures Swept(v)
  {
  }

  lemma SweepingSwept(w: World, upgrading: bool, clock: Word, answer: Answer)
    requires WorldInv(w) && Swept(w) && (w.owner.Sweeping? || w.owner.Expiring?)
    ensures Swept(OwnerNext(w, upgrading, clock, answer))
  {
    if w.owner.Expiring? {
      var i, now := w.owner.index, w.owner.now;
      assert Clean(Finish(w, i, EXPIRED, clock, Sweeping(i + 1, now)), i + 1, now);
    }
  }

  lemma PickingSwept(w: World, upgrading: bool, clock: Word, answer: Answer)
    requires WorldInv(w) && Swept(w) && w.owner.Picking?
    ensures Swept(OwnerNext(w, upgrading, clock, answer))
  {
    var i := Candidate(w.state);
    if i != NO_SLOT { assert !(w.state.slots[i].id < w.passStart && HasExpired(w.state.slots[i], w.owner.now)); }
  }

  lemma StartedSwept(w: World, upgrading: bool, clock: Word, answer: Answer)
    requires WorldInv(w) && Swept(w) && !w.owner.Sweeping? && !w.owner.Expiring?
    requires !w.owner.SubmittingRenewal? && !w.owner.Picking?
    ensures Swept(OwnerNext(w, upgrading, clock, answer))
  {
  }

  lemma OwnerSwept(w: World, upgrading: bool, clock: Word, answer: Answer)
    requires WorldInv(w) && Swept(w) && HasRoom(w)
    ensures Swept(OwnerNext(w, upgrading, clock, answer))
  {
    WorldIsShaped(w);
    hide *;
    if w.owner.Sweeping? || w.owner.Expiring? {
      SweepingSwept(w, upgrading, clock, answer);
    } else if w.owner.SubmittingRenewal? {
      RenewalSwept(w, upgrading, clock, answer);
    } else if w.owner.Picking? {
      PickingSwept(w, upgrading, clock, answer);
    } else {
      StartedSwept(w, upgrading, clock, answer);
    }
  }

  lemma RenewalSwept(w: World, upgrading: bool, clock: Word, answer: Answer)
    requires WorldInv(w) && Swept(w) && HasRoom(w) && w.owner.SubmittingRenewal?
    ensures Swept(OwnerNext(w, upgrading, clock, answer))
  {
    var request := Request(w.owner.token, w.owner.timeout, 0, 0);
    var r := Submit(w.state, upgrading, AcquireLease, w.owner.timeout, request, true, clock);
    SubmitKeepsOthers(w.state, upgrading, AcquireLease, w.owner.timeout, request, true, clock);
    forall i | 0 <= i < CAPACITY
      ensures r.state.slots[i] == w.state.slots[i] || r.state.slots[i].id == w.state.nextId
    {
      assert SlotOk(w.state, i);
    }
  }

  lemma EnqueueSwept(w: World, e: Event)
    requires WorldInv(w) && Swept(w) && HasRoom(w) && e.Enqueue?
    ensures Swept(Next(w, e))
  {
    if w.owner.Starting? { assert SlotOk(w.state, w.owner.index); }
    if PublicArguments(e.kind, e.timeout, e.request) {
      SubmitKeepsOthers(w.state, e.upgrading, e.kind, e.timeout, e.request, false, e.clock);
      SweptFrame(w, Next(w, e));
      hide Swept;
    }
  }

  lemma ConsumeSwept(w: World, e: Event)
    requires WorldInv(w) && Swept(w) && e.Consume?
    ensures Swept(Next(w, e))
  {
    if w.owner.Starting? { assert SlotOk(w.state, w.owner.index); }
    TakeKeepsLive(w.state, e.form, e.id);
    SweptFrame(w, Next(w, e));
    hide Swept;
  }

  lemma OtherSwept(w: World, e: Event)
    requires WorldInv(w) && Swept(w) && !e.Enqueue? && !e.Consume? && !e.OwnerStep?
    ensures Swept(Next(w, e))
  {
    hide Clean, Inv;
    if e.BeginPass? && w.owner.Idle? { NoneLooked(Next(w, e), e.now); }
    if e.SetRunning? { SameSwept(w, Next(w, e)); }
  }

  lemma NoneLooked(w: World, now: Word)
    ensures Clean(w, 0, now)
  {
  }

  lemma SameSwept(w: World, v: World)
    requires Swept(w) && v.state.slots == w.state.slots && v.state.nextId == w.state.nextId
    requires v.owner == w.owner && v.passStart == w.passStart
    ensures Swept(v)
  {
  }

  lemma NextSwept(w: World, e: Event)
    requires WorldInv(w) && Swept(w) && HasRoom(w)
    ensures Swept(Next(w, e))
  {
    WorldIsShaped(w);
    hide WorldInv, OwnerNext, Swept, HasRoom, Shaped;
    match e
    case Enqueue(_, _, _, _, _) => EnqueueSwept(w, e);
    case Consume(_, _) => ConsumeSwept(w, e);
    case OwnerStep(upgrading, clock, answer) => OwnerSwept(w, upgrading, clock, answer);
    case _ => OtherSwept(w, e);
  }

  // Runs

  function Run(w: World, events: seq<Event>): (v: World)
    requires Shaped(w)
    ensures Shaped(v)
    decreases |events|
  {
    if events == [] then w else Run(Next(w, events[0]), events[1..])
  }

  lemma {:induction false} RunInv(w: World, events: seq<Event>)
    requires WorldInv(w) && w.state.nextId + |events| <= MAXIMUM_ID
    ensures WorldInv(Run(w, events)) && Run(w, events).state.nextId <= w.state.nextId + |events|
    decreases |events|
  {
    if events != [] {
      NextInv(w, events[0]);
      RunInv(Next(w, events[0]), events[1..]);
    }
  }

  predicate Good(w: World) {
    WorldInv(w) && LeaseTold(w) && InOrder(w) && Funded(w) && ConsumedOnce(w) && Swept(w)
  }

  lemma {:induction false} RunGood(w: World, events: seq<Event>)
    requires Good(w) && w.state.nextId + |events| <= MAXIMUM_ID
    ensures Good(Run(w, events))
    decreases |events|
  {
    if events != [] {
      var v := Next(w, events[0]);
      NextInv(w, events[0]);
      NextTold(w, events[0]);
      NextOrder(w, events[0]);
      NextShape(w, events[0]);
      NextFunded(w, v);
      NextConsumed(w, v);
      NextSwept(w, events[0]);
      RunGood(v, events[1..]);
    }
  }

  /** Runs short enough for the 64-bit id counter. */
  predicate Bounded(events: seq<Event>) { |events| < MAXIMUM_ID }

  function After(events: seq<Event>): (w: World)
    ensures Shaped(w)
  {
    Run(START, events)
  }

  lemma EveryRunIsGood(events: seq<Event>)
    requires Bounded(events)
    ensures Good(After(events))
  {
    InitialInv();
    RunGood(START, events);
  }

  /** At most one operation is with the link: the active one. The link has been given exactly
      one RPC more than it has released while the active operation is admitted, else none. */
  lemma OneOperationInFlight(events: seq<Event>, i: nat, j: nat)
    requires Bounded(events) && i < CAPACITY && j < CAPACITY
    ensures var s := After(events).state;
            && (IsPending(s.slots[i]) <==> s.active == i)
            && (IsPending(s.slots[i]) && IsPending(s.slots[j]) ==> i == j)
            && s.started == s.released + InFlight(s)
  {
    EveryRunIsGood(events);
    var s := After(events).state;
    assert SlotOk(s, i) && SlotOk(s, j);
  }

  /** A command carries a token only if it is that of the latest successful acquire or renew,
      and since then no acquire or renew failed, no release finished, the lease did not run
      out, no upgrade pass took over and the endpoint was not stopped. */
  lemma CommandsUseTheLatestGrant(events: seq<Event>, upgrading: bool)
    requires Bounded(events)
    ensures var w := After(events);
            CommandToken(w.state, upgrading).TokenIs? ==>
              exists k :: LatestGrant(w.log, k, CommandToken(w.state, upgrading).token)
  {
    EveryRunIsGood(events);
    var w := After(events);
    if CommandToken(w.state, upgrading).TokenIs? {
      StandingIsLatestGrant(w.log);
    }
  }

  /** The lease has a token exactly while a grant stands, whatever its state: a renewing lease may have one
      or not, and this says when. */
  lemma TokenExactlyUnderAGrant(events: seq<Event>)
    requires Bounded(events)
    ensures var w := After(events);
            w.state.lease.token != 0 <==> exists k, token :: token != 0 && LatestGrant(w.log, k, token)
  {
    EveryRunIsGood(events);
    var w := After(events);
    if w.state.lease.token != 0 {
      StandingIsLatestGrant(w.log);
    }
    if k, token :| token != 0 && LatestGrant(w.log, k, token) {
      LatestGrantStands(w.log, k, token);
    }
  }

  /** Conversely a standing grant is refused only while the lease is in one of the states of
      a pending release or a racing acquire, or during an upgrade, or after a stop. */
  lemma StandingGrantIsUsable(events: seq<Event>, upgrading: bool, k: nat, token: nat)
    requires Bounded(events) && token != 0
    requires LatestGrant(After(events).log, k, token)
    ensures var s := After(events).state;
            CommandToken(s, upgrading) == TokenIs(token) <==>
              !upgrading && s.running && s.lease.state in {Held, RenewQueued, Renewing}
  {
    EveryRunIsGood(events);
    LatestGrantStands(After(events).log, k, token);
  }

  /** A held lease has a token, a grant in range, and is renewed no later than it expires. */
  lemma HeldLeaseIsSound(events: seq<Event>)
    requires Bounded(events)
    ensures var s := After(events).state;
            s.lease.state == Held ==>
              && s.lease.token != 0 && 0 < s.lease.granted < HALF
              && Until(s.renewAt, s.expireAt) == s.lease.granted - Max(1, s.lease.granted / 2) >= 0
  {
    EveryRunIsGood(events);
  }

  /** The link sees operations in the order in which they were submitted, whatever it
      answered busy to in between. */
  lemma AdmissionsInSubmissionOrder(events: seq<Event>, j: nat, k: nat)
    requires Bounded(events)
    ensures var log := After(events).log;
            j < k < |log| && log[j].Admitted? && log[k].Admitted? ==> log[j].id < log[k].id
  {
    EveryRunIsGood(events);
  }

  /** Every admission hands the link what is left of that operation's own timeout. */
  lemma AdmissionsAreFunded(events: seq<Event>, k: nat)
    requires Bounded(events) && k < |After(events).log| && After(events).log[k].Admitted?
    ensures exists j :: 0 <= j < k && Funds(After(events).log[j], After(events).log[k])
  {
    EveryRunIsGood(events);
  }

  /** An accepted id is consumed at most once. */
  lemma ConsumedAtMostOnce(events: seq<Event>, j: nat, k: nat)
    requires Bounded(events)
    ensures var log := After(events).log;
            j < k < |log| && log[j].Consumed? && log[k].Consumed? ==> log[j].id != log[k].id
  {
    EveryRunIsGood(events);
  }

  /** Once its sweep is done, a pass knows of no operation that was queued when it began and
      has run out of time; so only a younger one can be found expired when it is picked. */
  lemma SweepIsComplete(events: seq<Event>, i: nat)
    requires Bounded(events) && i < CAPACITY
    ensures var w := After(events);
            (w.owner.CheckingLease? || w.owner.CheckingRenewal? || w.owner.SubmittingRenewal? || w.owner.Picking?) ==>
              w.state.slots[i].id < w.passStart ==> !HasExpired(w.state.slots[i], w.owner.now)
  {
    EveryRunIsGood(events);
  }

  /** An operation that has an outcome never becomes live again. */
  lemma {:induction false} FinishedForGood(w: World, events: seq<Event>, id: nat)
    requires WorldInv(w) && w.state.nextId + |events| <= MAXIMUM_ID
    requires id < w.state.nextId && id !in Live(w.state)
    ensures id !in Live(Run(w, events).state)
    decreases |events|
  {
    if events != [] {
      NextInv(w, events[0]);
      FinishedForGood(Next(w, events[0]), events[1..], id);
    }
  }

  lemma {:induction false} GoneForGood(w: World, events: seq<Event>, id: nat)
    requires WorldInv(w) && w.state.nextId + |events| <= MAXIMUM_ID
    requires id < w.state.nextId && Gone(w.state, id)
    ensures Gone(Run(w, events).state, id)
    decreases |events|
  {
    if events != [] {
      var v := Next(w, events[0]);
      NextInv(w, events[0]);
      NextShape(w, events[0]);
      GoneStays(w, v, id);
      GoneForGood(v, events[1..], id);
    }
  }

  lemma ConsumedIsGone(w: World, v: World, i: nat)
    requires Inv(w.state) && WorldInv(v) && Shape(w, v) && Progress(w.state, v.state)
    requires i < CAPACITY && w.state.slots[i].used && Terminal(w.state.slots[i].state)
    requires v.state.slots[i] != w.state.slots[i]
    ensures w.state.slots[i].id < w.state.nextId && Gone(v.state, w.state.slots[i].id)
  {
    assert SlotOk(w.state, i) && DistinctIds(w.state.slots);
  }

  /** A finished operation's slot, result and all, stays as it is until it is consumed; then
      its id is gone for good. No expiry, stop, busy retry or late completion rewrites it. */
  lemma {:induction false} ResultsStand(w: World, events: seq<Event>, i: nat)
    requires WorldInv(w) && w.state.nextId + |events| <= MAXIMUM_ID
    requires i < CAPACITY && w.state.slots[i].used && Terminal(w.state.slots[i].state)
    ensures var v := Run(w, events);
            v.state.slots[i] == w.state.slots[i] || Gone(v.state, w.state.slots[i].id)
    decreases |events|
  {
    if events != [] {
      var v := Next(w, events[0]);
      NextInv(w, events[0]);
      if v.state.slots[i] == w.state.slots[i] {
        ResultsStand(v, events[1..], i);
      } else {
        NextShape(w, events[0]);
        hide Inv, Shape, Gone, Progress, Next;
        ConsumedIsGone(w, v, i);
        GoneForGood(v, events[1..], w.state.slots[i].id);
      }
    }
  }
}
