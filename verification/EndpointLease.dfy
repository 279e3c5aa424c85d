/** How long a token is used: what an owner pass leaves behind, and a run that shows both the token
    that outlives its grant for a pass and the renewal that starts without a token. */
module EndpointLease {
  import opened Clock32
  import opened EndpointModel
  import opened EndpointInvariant
  import opened EndpointRuns
  import opened EndpointHistory
  import opened EndpointObject
  import opened Wrappers

  // A pass and the grant

  predicate BeforeLeaseCheck(o: Owner) { o.Sweeping? || o.Expiring? || o.CheckingLease? }

  /** The states in which a pass looks at the expiry. */
  predicate IsChecked(lease: Lease) { lease.state == RenewQueued || lease.state == Renewing }

  lemma SweepKeepsLease(w: World, upgrading: bool, clock: Word, answer: Answer)
    requires Shaped(w) && (w.owner.Sweeping? || w.owner.Expiring?)
    ensures var v := OwnerNext(w, upgrading, clock, answer);
            && BeforeLeaseCheck(v.owner) && v.owner.now == w.owner.now && v.state.expireAt == w.state.expireAt
            && (v.state.lease.token != 0 ==> v.state.lease == w.state.lease)
  {
  }

  lemma LeaseIsChecked(w: World, upgrading: bool, clock: Word, answer: Answer)
    requires Shaped(w) && w.owner.CheckingLease?
    ensures var v := OwnerNext(w, upgrading, clock, answer);
            && !BeforeLeaseCheck(v.owner) && v.state.expireAt == w.state.expireAt
            && (v.state.lease.token != 0 ==>
                  w.state.lease.token != 0 && !(IsChecked(w.state.lease) && Until(w.owner.now, w.state.expireAt) == 0))
  {
  }

  lemma LaterStepsGrantNothing(w: World, upgrading: bool, clock: Word, answer: Answer)
    requires Shaped(w) && !BeforeLeaseCheck(w.owner)
    ensures var v := OwnerNext(w, upgrading, clock, answer);
            && !BeforeLeaseCheck(v.owner) && v.state.expireAt == w.state.expireAt
            && (v.state.lease.token != 0 ==> w.state.lease.token != 0)
  {
  }

  lemma {:induction false} RestOfPass(w: World, upgrading: bool, clocks: Clocks, answer: Answer)
    requires Shaped(w) && !BeforeLeaseCheck(w.owner)
    ensures var t := Alone(w, upgrading, clocks, answer).state;
            t.expireAt == w.state.expireAt && (t.lease.token != 0 ==> w.state.lease.token != 0)
    decreases Rank(w.owner)
  {
    if !w.owner.Idle? {
      var v := OwnerNext(w, upgrading, clocks(w.owner), answer);
      assert Alone(w, upgrading, clocks, answer) == Alone(v, upgrading, clocks, answer);
      LaterStepsGrantNothing(w, upgrading, clocks(w.owner), answer);
      ShorterPass(w, upgrading, clocks(w.owner), answer);
      hide OwnerNext, Alone, Rank;
      RestOfPass(v, upgrading, clocks, answer);
    }
  }

  lemma {:induction false} PassKeepsGrant(w: World, upgrading: bool, clocks: Clocks, answer: Answer)
    requires Shaped(w) && BeforeLeaseCheck(w.owner)
    ensures var t := Alone(w, upgrading, clocks, answer).state;
            && t.expireAt == w.state.expireAt
            && (t.lease.token != 0 ==>
                  w.state.lease.token != 0 && !(IsChecked(w.state.lease) && Until(w.owner.now, w.state.expireAt) == 0))
    decreases Rank(w.owner)
  {
    var v := OwnerNext(w, upgrading, clocks(w.owner), answer);
    assert Alone(w, upgrading, clocks, answer) == Alone(v, upgrading, clocks, answer);
    ShorterPass(w, upgrading, clocks(w.owner), answer);
    hide OwnerNext, Alone, Rank;
    if w.owner.CheckingLease? {
      LeaseIsChecked(w, upgrading, clocks(w.owner), answer);
      RestOfPass(v, upgrading, clocks, answer);
    } else {
      SweepKeepsLease(w, upgrading, clocks(w.owner), answer);
      PassKeepsGrant(v, upgrading, clocks, answer);
    }
  }

  lemma ShorterPass(w: World, upgrading: bool, clock: Word, answer: Answer)
    requires Shaped(w) && !w.owner.Idle?
    ensures Rank(OwnerNext(w, upgrading, clock, answer).owner) < Rank(w.owner)
  {
  }

  /** A token that can be used after a pass is past its grant exactly when it already was when the
      pass began and the lease was in a state in which a pass does not look at the expiry: held, or
      with a release or a racing acquire under way. */
  lemma UsableTokenAfterPass(w: World, upgrading: bool, clocks: Clocks, answer: Answer)
    requires Shaped(w) && w.owner.Sweeping?
    ensures var t := Alone(w, upgrading, clocks, answer).state;
            CommandToken(t, upgrading).TokenIs? ==>
              (Until(w.owner.now, t.expireAt) == 0 <==>
                 !IsChecked(w.state.lease) && Until(w.owner.now, w.state.expireAt) == 0)
  {
    PassKeepsGrant(w, upgrading, clocks, answer);
    hide Alone;
  }

  /** So once the renewal is queued, a pass leaves no token that is past its grant. */
  lemma RenewingTokenIsInItsGrant(w: World, upgrading: bool, clocks: Clocks, answer: Answer)
    requires Shaped(w) && w.owner.Sweeping? && IsChecked(w.state.lease)
    ensures var t := Alone(w, upgrading, clocks, answer).state;
            CommandToken(t, upgrading).TokenIs? ==> Until(w.owner.now, t.expireAt) > 0
  {
    UsableTokenAfterPass(w, upgrading, clocks, answer);
    hide Alone;
  }

  // A run

  function Steps(n: nat, clock: Word, answer: Answer): seq<Event> {
    if n == 0 then [] else [OwnerStep(false, clock, answer)] + Steps(n - 1, clock, answer)
  }

  /** A pass at one reading of the clock; no pass takes more steps. */
  function Pass(now: Word, answer: Answer): seq<Event> { [BeginPass(now)] + Steps(16, now, answer) }

  lemma {:induction false} RunConcat(w: World, a: seq<Event>, b: seq<Event>)
    requires Shaped(w)
    ensures Run(w, a + b) == Run(Run(w, a), b)
    decreases |a|
  {
    if a == [] {
      assert a + b == b;
    } else {
      assert (a + b)[1..] == a[1..] + b;
      RunConcat(Next(w, a[0]), a[1..], b);
    }
  }

  lemma RunStep(w: World, n: nat, now: Word, answer: Answer)
    requires Shaped(w) && n > 0
    ensures Run(w, Steps(n, now, answer)) == Run(OwnerNext(w, false, now, answer), Steps(n - 1, now, answer))
  {
    assert Steps(n, now, answer)[1..] == Steps(n - 1, now, answer);
  }

  lemma {:induction false} IdleSteps(w: World, n: nat, now: Word, answer: Answer)
    requires Shaped(w) && w.owner.Idle?
    ensures Run(w, Steps(n, now, answer)) == w
  {
    if n > 0 {
      RunStep(w, n, now, answer);
      IdleSteps(w, n - 1, now, answer);
    }
  }

  lemma SweepStep(w: World, now: Word, answer: Answer)
    requires Shaped(w) && w.owner.Sweeping?
    requires w.owner.index < CAPACITY ==> !HasExpired(w.state.slots[w.owner.index], w.owner.now)
    ensures OwnerNext(w, false, now, answer) == w.(owner := if w.owner.index < CAPACITY
                                                             then Sweeping(w.owner.index + 1, w.owner.now)
                                                             else CheckingLease(w.owner.now))
  {
  }

  lemma {:induction false} QuietSweep(w: World, n: nat, now: Word, answer: Answer)
    requires Shaped(w) && w.owner.Sweeping? && w.owner.index <= CAPACITY && n > CAPACITY - w.owner.index
    requires forall j :: 0 <= j < CAPACITY ==> !HasExpired(w.state.slots[j], w.owner.now)
    ensures Run(w, Steps(n, now, answer))
         == Run(w.(owner := CheckingLease(w.owner.now)), Steps(n - 1 - (CAPACITY - w.owner.index), now, answer))
    decreases CAPACITY - w.owner.index
  {
    hide OwnerNext, Run, Steps, HasExpired;
    RunStep(w, n, now, answer);
    SweepStep(w, now, answer);
    if w.owner.index < CAPACITY { QuietSweep(OwnerNext(w, false, now, answer), n - 1, now, answer); }
  }

  /** The first five steps after a sweep. */
  function Five(w: World, now: Word, answer: Answer): (v: World)
    requires Shaped(w)
    ensures Shaped(v)
  {
    var a := OwnerNext(w, false, now, answer);
    var b := OwnerNext(a, false, now, answer);
    var c := OwnerNext(b, false, now, answer);
    var d := OwnerNext(c, false, now, answer);
    OwnerNext(d, false, now, answer)
  }

  lemma FiveSteps(w: World, now: Word, answer: Answer)
    requires Shaped(w)
    ensures Run(w, Steps(7, now, answer)) == Run(Five(w, now, answer), Steps(2, now, answer))
  {
    hide OwnerNext, Run, Steps, Shaped;
    var a := OwnerNext(w, false, now, answer);
    var b := OwnerNext(a, false, now, answer);
    var c := OwnerNext(b, false, now, answer);
    var d := OwnerNext(c, false, now, answer);
    RunStep(w, 7, now, answer);
    RunStep(a, 6, now, answer);
    RunStep(b, 5, now, answer);
    RunStep(c, 4, now, answer);
    RunStep(d, 3, now, answer);
  }

  /** Where a pass is when it comes to the lease, if nothing queued has expired. */
  function AtLease(w: World, now: Word): World { w.(owner := CheckingLease(now), passStart := w.state.nextId) }

  lemma QuietPass(w: World, now: Word, answer: Answer)
    requires Shaped(w) && w.owner.Idle?
    requires forall j :: 0 <= j < CAPACITY ==> !HasExpired(w.state.slots[j], now)
    requires Five(AtLease(w, now), now, answer).owner.Idle?
    ensures Run(w, Pass(now, answer)) == Five(AtLease(w, now), now, answer)
  {
    hide OwnerNext, HasExpired, Five;
    var u := Next(w, BeginPass(now));
    assert Pass(now, answer)[1..] == Steps(16, now, answer);
    assert Run(w, Pass(now, answer)) == Run(u, Steps(16, now, answer));
    hide Run, Steps, Pass;
    QuietSweep(u, 16, now, answer);
    FiveSteps(AtLease(w, now), now, answer);
    IdleSteps(Five(AtLease(w, now), now, answer), 2, now, answer);
  }

  /** A lease asked for with 1000 ms is granted for 4 ms; its renewal always meets a busy link. */
  const ASKED := Request(0, 1000, 0, 0)
  const GRANT := Completion(Succeeded, 0, 0, Some(GrantReply(true, 7, true, 4)))

  function Opening(): seq<Event> { [SetRunning(true), Enqueue(AcquireLease, 1000, ASKED, false, 0)] }
  function Granted(): seq<Event> { Opening() + Pass(0, Accepted) + [Deliver(0, GRANT, 10)] }
  function Overdue(): seq<Event> { Granted() + Pass(20, LinkBusy) }
  function Tokenless(): seq<Event> { Overdue() + Pass(30, LinkBusy) }

  function Ticket(): Slot {
    EMPTY_SLOT.(used := true, id := 1, timeout := 1000, request := ASKED, kind := AcquireLease, state := Queued,
                status := Ok)
  }

  function Renewal(): Slot {
    Ticket().(internal := true, id := 2, submittedAt := 20, request := Request(7, 1000, 0, 0))
  }

  function Table(first: Slot, last: Slot): seq<Slot> {
    [first, EMPTY_SLOT, EMPTY_SLOT, EMPTY_SLOT, EMPTY_SLOT, EMPTY_SLOT, EMPTY_SLOT, last]
  }

  lemma OldestInTable(first: Slot, last: Slot)
    ensures IsQueued(first) && first.id < MAXIMUM_ID && !IsQueued(last) ==> OldestQueued(Table(first, last), CAPACITY) == 0
    ensures !IsQueued(first) && IsQueued(last) && last.id < MAXIMUM_ID ==> OldestQueued(Table(first, last), CAPACITY) == 7
  {
    var t := Table(first, last);
    var r := OldestQueued(t, CAPACITY);
    assert t[0] == first && t[7] == last;
    assert forall k :: 0 < k < 7 ==> !IsQueued(t[k]);
  }

  function Asked(): State {
    State(Table(Ticket(), EMPTY_SLOT), NO_SLOT, 2, Lease(AcquireQueued, Ok, 0, 0, 0), 0, 0, 0, true, 0, 0)
  }

  function Sent(): State {
    State(Table(Ticket().(state := LinkPending, admitted := true), EMPTY_SLOT), 0, 2, Lease(Acquiring, Ok, 0, 0, 0),
          0, 0, 0, true, 1, 0)
  }

  function Have(): State {
    State(Table(Ticket().(state := Completed, admitted := true), EMPTY_SLOT), NO_SLOT, 2, Lease(Held, Ok, 0, 7, 4),
          12, 14, 1000, true, 1, 1)
  }

  function Late(): State {
    Have().(slots := Table(Have().slots[0], Renewal()), nextId := 3, lease := Lease(Renewing, Ok, 0, 7, 4))
  }

  lemma OpeningRun()
    ensures Run(START, Opening()).state == Asked() && Run(START, Opening()).owner.Idle?
  {
    var w := Next(START, Opening()[0]);
    assert Opening()[1..] == [Enqueue(AcquireLease, 1000, ASKED, false, 0)] && Opening()[1..][1..] == [];
    assert w.state.slots[0] == EMPTY_SLOT;
    assert AllocateSlot(w.state.slots, false) == 0;
    assert Next(w, Opening()[1]).state.slots == Asked().slots;
  }

  lemma PassSends(w: World)
    requires w.state == Asked() && w.owner.Idle?
    ensures Run(w, Pass(0, Accepted)).state == Sent() && Run(w, Pass(0, Accepted)).owner.Idle?
  {
    var v := AtLease(w, 0);
    OldestInTable(Ticket(), EMPTY_SLOT);
    var a := OwnerNext(v, false, 0, Accepted);
    var b := OwnerNext(a, false, 0, Accepted);
    assert a.state == Asked() && b.state == Asked() && b.owner == Picking(0);
    var c := OwnerNext(b, false, 0, Accepted);
    assert c.owner == Starting(0, 0);
    var d := OwnerNext(c, false, 0, Accepted);
    assert d.state.slots == Sent().slots && d.owner.Idle?;
    assert Five(v, 0, Accepted) == d;
    QuietPass(w, 0, Accepted);
  }

  lemma DeliveryGrants(w: World)
    requires w.state == Sent() && w.owner.Idle?
    ensures Next(w, Deliver(0, GRANT, 10)).state == Have() && Next(w, Deliver(0, GRANT, 10)).owner.Idle?
  {
    assert Next(w, Deliver(0, GRANT, 10)).state.slots == Have().slots;
  }

  lemma NoneExpired(first: Slot, last: Slot, now: Word)
    requires !HasExpired(first, now) && !HasExpired(last, now)
    ensures forall j :: 0 <= j < CAPACITY ==> !HasExpired(Table(first, last)[j], now)
  {
  }

  lemma RenewalSubmitted()
    ensures var r := Submit(Have(), false, AcquireLease, 1000, Request(7, 1000, 0, 0), true, 20).state;
            r == Late().(lease := Lease(RenewQueued, Ok, 0, 7, 4))
  {
    var r := Submit(Have(), false, AcquireLease, 1000, Request(7, 1000, 0, 0), true, 20).state;
    assert r.slots == Late().slots;
  }

  /** Offering the renewal to a busy link and taking it back changes the lease's state alone. */
  lemma RenewalOffered(w: World, now: Word)
    requires w.state.slots == Late().slots && w.state.active == NO_SLOT && w.owner == Picking(now) && now <= 30
    ensures var c := OwnerNext(w, false, now, LinkBusy); var d := OwnerNext(c, false, now, LinkBusy);
            d.owner.Idle? && d.state == w.state.(lease := w.state.lease.(state := Renewing))
  {
    OldestInTable(Have().slots[0], Renewal());
    assert Candidate(w.state) == 7 && w.state.slots[7] == Renewal();
    hide OldestQueued;
    var c := OwnerNext(w, false, now, LinkBusy);
    assert c.owner == Starting(7, now) && c.state.slots == w.state.slots[7 := Renewal().(state := LinkPending)];
    var d := OwnerNext(c, false, now, LinkBusy);
    assert d.state.slots == w.state.slots;
  }

  lemma RenewalIsLate(w: World)
    requires w.state == Have() && w.owner.Idle?
    ensures Run(w, Pass(20, LinkBusy)).state == Late() && Run(w, Pass(20, LinkBusy)).owner.Idle?
  {
    var v := AtLease(w, 20);
    var a := OwnerNext(v, false, 20, LinkBusy);
    var b := OwnerNext(a, false, 20, LinkBusy);
    assert a.state == Have() && b.state == Have() && b.owner == SubmittingRenewal(7, 1000, 20);
    RenewalSubmitted();
    var c := OwnerNext(b, false, 20, LinkBusy);
    assert c.state == Late().(lease := Lease(RenewQueued, Ok, 0, 7, 4)) && c.owner == Picking(20);
    hide OwnerNext, Submit, Run, Pass;
    RenewalOffered(c, 20);
    NoneExpired(Have().slots[0], EMPTY_SLOT, 20);
    QuietPass(w, 20, LinkBusy);
  }

  lemma RenewalLosesToken(w: World)
    requires w.state == Late() && w.owner.Idle?
    ensures var t := Run(w, Pass(30, LinkBusy)).state; t.lease.state == Renewing && t.lease.token == 0
  {
    var v := AtLease(w, 30);
    var a := OwnerNext(v, false, 30, LinkBusy);
    var b := OwnerNext(a, false, 30, LinkBusy);
    assert b.state.lease.token == 0 && b.owner == Picking(30);
    assert b.state.slots == Late().slots && b.state.active == NO_SLOT;
    RenewalOffered(b, 30);
    var d := OwnerNext(OwnerNext(b, false, 30, LinkBusy), false, 30, LinkBusy);
    assert OwnerNext(d, false, 30, LinkBusy) == d;
    hide OwnerNext, Run, Pass;
    NoneExpired(Late().slots[0], Renewal(), 30);
    QuietPass(w, 30, LinkBusy);
  }

  lemma OverdueRun()
    ensures After(Overdue()).state == Late() && After(Overdue()).owner.Idle?
  {
    hide Run, Next, Pass;
    OpeningRun();
    PassSends(Run(START, Opening()));
    RunConcat(START, Opening(), Pass(0, Accepted));
    var sent := Run(START, Opening() + Pass(0, Accepted));
    DeliveryGrants(sent);
    RunOne(sent, Deliver(0, GRANT, 10));
    RunConcat(START, Opening() + Pass(0, Accepted), [Deliver(0, GRANT, 10)]);
    RunConcat(START, Granted(), Pass(20, LinkBusy));
    RenewalIsLate(Run(START, Granted()));
  }

  lemma RunOne(w: World, e: Event)
    requires Shaped(w)
    ensures Run(w, [e]) == Next(w, e)
  {
    assert [e][1..] == [];
  }

  /** A run of the code in which, after a pass at 20 ms, commands still carry a token whose grant
      ended at 14 ms. */
  lemma OverdueTokenIsUsed()
    ensures var s := After(Overdue()).state;
            CommandToken(s, false) == TokenIs(7) && s.expireAt == 14 && Until(20, s.expireAt) == 0
  {
    OverdueRun();
    hide After;
  }

  /** And, after one more pass, a lease that is renewing without a token. */
  lemma RenewingWithoutTokenIsReached()
    ensures var s := After(Tokenless()).state;
            s.lease.state == Renewing && s.lease.token == 0 && !CommandToken(s, false).TokenIs?
  {
    OverdueRun();
    RunConcat(START, Overdue(), Pass(30, LinkBusy));
    hide Run, Pass, Overdue;
    RenewalLosesToken(After(Overdue()));
  }
}
