/** Rebooting into new firmware and finding out whether it runs, against a device, a link and a
    scheduler that may do anything their small contracts allow. */
module FirmwareSession {
  import opened DeviceTypes
  import opened FirmwareUpdate
  import opened Wrappers

  predicate ValidTimeout(milliseconds: int) { 0 < milliseconds < 0x80000000 }

  predicate SameDevice(a: DeviceInfo, b: DeviceInfo) {
    a.serial == b.serial && a.board == b.board && a.firmwareType == b.firmwareType
  }

  // The environment

  /** What taking a query's result yields: not finished, failed, or the answer delivered at an instant. */
  datatype Taken = Unfinished | Failed(error: Error) | Delivered(at: nat)

  /** Everything outside this code, as functions of the instant it is asked at. Instants number the
      moments something is asked of the environment; other threads and the device run in between.
      `peer` is the session of the device last heard from, 0 before the first; `told` and `booted` are
      what the device says in a response delivered at an instant; `others` is the timeouts of the
      info queries that other callers make from start to end at an instant. */
  datatype Oracle = Oracle(clock: nat -> int, after: nat -> nat, wake: (nat, int) -> nat, peer: nat -> nat,
                           device: Device, calls: Calls)
  datatype Device = Device(told: nat -> DeviceInfo, booted: nat -> BootStatus)
  datatype Calls = Calls(submit: nat -> Error, taken: (nat, nat) -> Taken, bootTaken: (nat, nat) -> Taken,
                         admission: nat -> Error, reboot: nat -> Error, contended: nat -> bool,
                         others: nat -> seq<int>)

  /** Sessions are numbered and do not recur: a session left for another is never met again, and
      there is always one after the first. */
  ghost predicate SessionsNeverRecur(peer: nat -> nat) {
    && (forall i: nat, j: nat :: i <= j && peer(i) != 0 ==> peer(j) != 0)
    && (forall i: nat, j: nat, k: nat :: i <= j <= k && peer(i) != 0 && peer(i) == peer(k) ==> peer(j) == peer(i))
  }

  /** Time does not go back, and sleeping takes as long as asked. */
  ghost predicate TimePasses(o: Oracle) {
    && (forall t: nat :: t < o.after(t))
    && (forall i: nat, j: nat :: i <= j ==> o.clock(i) <= o.clock(j))
    && (forall t: nat, d: int :: t < o.wake(t, d) && o.clock(o.wake(t, d)) >= o.clock(t) + d)
  }

  /** A response is delivered between its request and its result being taken, and its session is the
      one last heard from at that instant. Of boot statuses the upgrade client makes sure that they are
      read for the call that returns them, and not before it: UpgradeTheorems.BootStatusIsCurrent and
      BootStatusIsReadDuringItsCall. */
  ghost predicate ResponsesAreTimely(o: Oracle) {
    && (forall s: nat, t: nat :: s <= t ==>
          var d := o.calls.taken(s, t); d.Delivered? ==> s <= d.at <= t && o.peer(d.at) != 0)
    && (forall s: nat, t: nat :: s <= t ==>
          var d := o.calls.bootTaken(s, t); d.Delivered? ==> s <= d.at <= t && o.peer(d.at) != 0)
    && (forall s: nat, t: nat :: var d := o.calls.taken(s, t); d.Failed? ==> !d.error.NoError?)
    && (forall s: nat, t: nat :: var d := o.calls.bootTaken(s, t); d.Failed? ==> !d.error.NoError?)
  }

  ghost predicate Sane(o: Oracle) { SessionsNeverRecur(o.peer) && TimePasses(o) && ResponsesAreTimely(o) }

  lemma NotLeft(o: Oracle, i: nat, j: nat, k: nat)
    requires Sane(o) && i <= j <= k && o.peer(i) != 0 && o.peer(i) == o.peer(k)
    ensures o.peer(j) == o.peer(i)
  {
  }

  lemma StaysKnown(o: Oracle, i: nat, j: nat)
    requires Sane(o) && i <= j && o.peer(i) != 0
    ensures o.peer(j) != 0
  {
  }

  lemma TakenInTime(o: Oracle, s: nat, t: nat)
    requires Sane(o) && s <= t
    ensures var d := o.calls.taken(s, t);
            (d.Delivered? ==> s <= d.at <= t && o.peer(d.at) != 0) && (d.Failed? ==> !d.error.NoError?)
    ensures var d := o.calls.bootTaken(s, t);
            (d.Delivered? ==> s <= d.at <= t && o.peer(d.at) != 0) && (d.Failed? ==> !d.error.NoError?)
  {
  }

  // Results

  datatype InfoResult = InfoResult(error: Error, info: Option<DeviceInfo>, peer: nat)
  datatype State = Unknown | TargetConfirmed | PreviousFirmware
  datatype InstallResult = InstallResult(error: Error, state: State, reboot: Error, before: Option<DeviceInfo>,
                                         current: Option<DeviceInfo>, boot: Option<BootStatus>)
  datatype Options = Options(query: int, reboot: int, boot: int, poll: int)

  const NO_RESULT := InstallResult(NoError, Unknown, NoError, None, None, None)

  predicate ValidOptions(o: Options) {
    ValidTimeout(o.query) && ValidTimeout(o.reboot) && ValidTimeout(o.boot) && ValidTimeout(o.poll)
  }

  function Lesser(a: int, b: int): int { if a < b then a else b }

  function Failure(error: Error): InfoResult { InfoResult(error, None, 0) }

  /** An info result is right when the device said so in the very session it names. */
  ghost predicate Attributed(o: Oracle, r: InfoResult, from: nat, to: nat) {
    r.error.NoError? ==> r.peer != 0 && exists d: nat :: SaidIn(o, r, from, to, d)
  }

  predicate SaidIn(o: Oracle, r: InfoResult, from: nat, to: nat, d: nat) {
    from <= d <= to && o.peer(d) == r.peer && r.info == Some(o.device.told(d))
  }

  lemma Saying(o: Oracle, r: InfoResult, from: nat, to: nat, d: nat)
    requires SaidIn(o, r, from, to, d) && r.peer != 0
    ensures Attributed(o, r, from, to)
  {
  }

  lemma FailureIsAttributed(o: Oracle, error: Error, from: nat, to: nat)
    requires !error.NoError?
    ensures Attributed(o, Failure(error), from, to)
  {
  }

  lemma AttributedWithin(o: Oracle, r: InfoResult, from: nat, to: nat, start: nat, end: nat)
    requires Attributed(o, r, from, to) && start <= from && to <= end
    ensures Attributed(o, r, start, end)
  {
    if r.error.NoError? {
      var d: nat :| SaidIn(o, r, from, to, d);
      assert SaidIn(o, r, start, end, d);
    }
  }

  /** What a poll concludes from a device that answered in a new session. */
  function Conclusion(expected: Version, before: DeviceInfo, current: DeviceInfo, boot: BootStatus): State {
    if !PrimaryConfirmed(boot) then Unknown
    else if current.firmware == expected then TargetConfirmed
    else if current.firmware == before.firmware then PreviousFirmware
    else Unknown
  }

  lemma OnlyConfirmed(expected: Version, before: DeviceInfo, current: DeviceInfo, boot: BootStatus)
    requires !Conclusion(expected, before, current, boot).Unknown?
    ensures PrimaryConfirmed(boot) && boot.error.NoError?
  {
  }

  /** Where a conclusion comes from: when the original identity was told and last checked, and when
      the new session told its identity and its boot status. */
  datatype Witness = Witness(told: nat, checked: nat, answered: nat, booted: nat)

  predicate NewSession(o: Oracle, checked: nat, answered: nat) {
    forall t: nat :: t <= checked ==> o.peer(t) != o.peer(answered)
  }

  /** One session different from every session up to the reboot request told both the identity and
      the boot status; it is the same device, compatible, and its primary slot is confirmed. */
  ghost predicate Observed(o: Oracle, r: InstallResult, from: nat, to: nat, w: Witness) {
    && from <= w.told <= w.checked < w.answered <= w.booted <= to
    && o.peer(w.told) == o.peer(w.checked) && o.peer(w.checked) != 0
    && o.peer(w.answered) != 0 && o.peer(w.booted) == o.peer(w.answered) && NewSession(o, w.checked, w.answered)
    && r.before == Some(o.device.told(w.told)) && r.current == Some(o.device.told(w.answered))
    && r.boot == Some(o.device.booted(w.booted))
    && SameDevice(r.current.value, r.before.value)
    && Compatible(r.current.value.protocol) && Compatible(r.before.value.protocol)
    && PrimaryConfirmed(r.boot.value)
  }

  ghost predicate Proven(o: Oracle, r: InstallResult, expected: Version, from: nat, to: nat) {
    && (r.error.NoError? <==> !r.state.Unknown?)
    && (!r.state.Unknown? ==>
          exists w: Witness :: Observed(o, r, from, to, w))
    && (r.state.TargetConfirmed? ==> r.current.Some? && r.current.value.firmware == expected)
    && (r.state.PreviousFirmware? ==>
          r.current.Some? && r.before.Some? &&
          r.current.value.firmware == r.before.value.firmware && r.current.value.firmware != expected)
  }

  lemma FailureIsProven(o: Oracle, r: InstallResult, expected: Version, from: nat, to: nat)
    requires !r.error.NoError? && r.state.Unknown?
    ensures Proven(o, r, expected, from, to)
  {
  }

  lemma ProvenSince(o: Oracle, r: InstallResult, expected: Version, from: nat, to: nat, earlier: nat)
    requires Proven(o, r, expected, from, to) && earlier <= from
    ensures Proven(o, r, expected, earlier, to)
  {
    if !r.state.Unknown? {
      var w: Witness :| Observed(o, r, from, to, w);
      assert Observed(o, r, earlier, to, w);
    }
  }

  lemma ProvenBy(o: Oracle, r: InstallResult, expected: Version, from: nat, to: nat, w: Witness)
    requires Observed(o, r, from, to, w) && r.error.NoError? && r.before.value.firmware != expected
    requires r.state == Conclusion(expected, r.before.value, r.current.value, r.boot.value) && !r.state.Unknown?
    ensures Proven(o, r, expected, from, to)
  {
  }

  lemma SessionIsNew(o: Oracle, checked: nat, answered: nat)
    requires Sane(o) && checked <= answered
    requires o.peer(checked) != 0 && o.peer(answered) != 0 && o.peer(checked) != o.peer(answered)
    ensures NewSession(o, checked, answered)
  {
    forall t: nat | t <= checked ensures o.peer(t) != o.peer(answered) {
      if o.peer(t) == o.peer(answered) { NotLeft(o, t, checked, answered); }
    }
  }

  /** A boot status read in the session that gave the info. */
  datatype Sighting = Sighting(info: DeviceInfo, boot: BootStatus)

  /** Nothing read since then decided the question. */
  predicate Undecided(expected: Version, before: DeviceInfo, seen: seq<Sighting>, since: nat) {
    forall i: nat :: since <= i < |seen| ==> Conclusion(expected, before, seen[i].info, seen[i].boot).Unknown?
  }

  class Session {
    const oracle: Oracle
    var now: nat
    // the endpoint's pending device-info requests, by id, with the instant of submission
    var pending: map<nat, nat>
    var nextRequest: nat
    var submitted: nat
    // the upgrade client
    var verifying: bool
    var reboots: nat
    // this object
    var infoRequest: nat
    // every boot status read for a new session, in order
    var sightings: seq<Sighting>

    constructor (oracle: Oracle)
      requires Sane(oracle)
      ensures Valid() && this.oracle == oracle && pending == map[] && reboots == 0 && !verifying
    {
      this.oracle := oracle;
      now, pending, nextRequest, submitted := 0, map[], 1, 0;
      verifying, reboots, infoRequest, sightings := false, 0, 0, [];
    }

    /** At most one device-info request is outstanding, and this object knows it. */
    ghost predicate Valid()
      reads this
    {
      && Sane(oracle)
      && pending.Keys == (if infoRequest == 0 then {} else {infoRequest})
      && (infoRequest != 0 ==> pending[infoRequest] <= now)
      && infoRequest < nextRequest && nextRequest > 0
    }

    method Tick()
      requires Sane(oracle)
      modifies `now
      ensures old(now) < now && oracle.clock(old(now)) <= oracle.clock(now)
    {
      now := oracle.after(now);
    }

    /** The result of a query, consumed unless it is still pending. */
    method TakeInfo(id: nat) returns (taken: Taken)
      requires Valid() && id != 0 && id == infoRequest
      modifies `now, `pending
      ensures old(now) < now && oracle.clock(old(now)) <= oracle.clock(now)
      ensures taken == oracle.calls.taken(old(pending[id]), now)
      ensures pending == if taken.Unfinished? then old(pending) else old(pending) - {id}
    {
      Tick();
      taken := oracle.calls.taken(pending[id], now);
      if !taken.Unfinished? { pending := pending - {id}; }
    }

    method SubmitInfo() returns (error: Error, id: nat)
      requires Valid() && infoRequest == 0
      modifies `now, `pending, `nextRequest, `submitted
      ensures old(now) < now && oracle.clock(old(now)) <= oracle.clock(now)
      ensures error.NoError? ==> id == old(nextRequest) && pending == map[id := now] && submitted == old(submitted) + 1
      ensures error.NoError? ==> nextRequest == old(nextRequest) + 1
      ensures !error.NoError? ==> pending == old(pending) && nextRequest == old(nextRequest) && submitted == old(submitted)
    {
      Tick();
      error, id := oracle.calls.submit(now), 0;
      if error.NoError? {
        id := nextRequest;
        pending := pending[id := now];
        nextRequest := nextRequest + 1;
        submitted := submitted + 1;
      }
    }

    method PeerSession() returns (peer: nat)
      requires Sane(oracle)
      modifies `now
      ensures old(now) < now && oracle.clock(old(now)) <= oracle.clock(now) && peer == oracle.peer(now)
    {
      Tick();
      peer := oracle.peer(now);
    }

    /** A request whose caller gave up may still be pending: it is taken before another is made. */
    method DrainLeftover() returns (drained: bool)
      requires Valid()
      modifies `now, `pending, `infoRequest
      ensures Valid() && old(now) <= now && oracle.clock(old(now)) <= oracle.clock(now)
      ensures drained ==> infoRequest == 0
    {
      hide Sane;
      if infoRequest == 0 { return true; }
      var leftover := TakeInfo(infoRequest);
      if leftover.Unfinished? { return false; }
      infoRequest := 0;
      return true;
    }

    /** Submit, wait, take. The result is None while the request is still pending. */
    method Exchange() returns (error: Error, delivered: Option<nat>)
      requires Valid() && infoRequest == 0
      modifies `now, `pending, `nextRequest, `submitted, `infoRequest
      ensures Valid() && old(now) < now && oracle.clock(old(now)) <= oracle.clock(now)
      ensures submitted <= old(submitted) + 1
      ensures delivered.Some? <==> error.NoError?
      ensures delivered.Some? ==> infoRequest == 0 && old(now) < delivered.value <= now && oracle.peer(delivered.value) != 0
    {
      hide Sane;
      var status, id := SubmitInfo();
      if !status.NoError? { return status, None; }
      ghost var sent := now;
      infoRequest := id;
      Tick();
      var taken := TakeInfo(infoRequest);
      if taken.Unfinished? { return Timeout, None; }
      infoRequest := 0;
      TakenInTime(oracle, sent, now);
      if taken.Failed? { return taken.error, None; }
      return NoError, Some(taken.at);
    }

    /** Ask the device what it is. When nothing was ever heard from it, the first answer only
        establishes its session, and a second query is made within the same deadline. */
    method QueryInfo(timeout: int) returns (r: InfoResult)
      requires Valid()
      modifies `now, `pending, `nextRequest, `submitted, `infoRequest
      ensures Valid() && old(now) <= now && oracle.clock(old(now)) <= oracle.clock(now)
      ensures Attributed(oracle, r, old(now), now)
      ensures submitted <= old(submitted) + (if oracle.peer(old(now)) == 0 then 2 else 1)
      ensures !ValidTimeout(timeout) ==> r == Failure(InvalidArgument) && submitted == old(submitted)
      decreases if oracle.peer(now) == 0 then 1 else 0
    {
      hide Sane, Attributed;
      ghost var start := now;
      forall error: Error, end: nat | !error.NoError? ensures Attributed(oracle, Failure(error), start, end) {
        FailureIsAttributed(oracle, error, start, end);
      }
      if !ValidTimeout(timeout) { return Failure(InvalidArgument); }
      var deadline := oracle.clock(now) + timeout;
      var drained := DrainLeftover();
      if !drained { return Failure(Busy); }
      var peer := PeerSession();
      ghost var asked := now;
      var error, delivered := Exchange();
      if delivered.None? { return Failure(error); }
      var answered := PeerSession();
      if answered == 0 { return Failure(ProtocolError); }
      if peer != 0 && peer != answered { return Failure(TransportError); }
      if peer == 0 {
        if oracle.peer(start) != 0 { StaysKnown(oracle, start, asked); }
        ghost var heard := now;
        Tick();
        StaysKnown(oracle, heard, now);
        var remaining := deadline - oracle.clock(now);
        if remaining <= 0 { return Failure(Timeout); }
        ghost var again := now;
        r := QueryInfo(remaining);
        AttributedWithin(oracle, r, again, now, start, now);
        return;
      }
      NotLeft(oracle, asked, delivered.value, now);
      r := InfoResult(NoError, Some(oracle.device.told(delivered.value)), answered);
      assert Attributed(oracle, r, start, now) by { Saying(oracle, r, start, now, delivered.value); }
    }

    /** One caller at a time: another one is turned away. */
    method GetInfo(timeout: int) returns (r: InfoResult)
      requires Valid()
      modifies `now, `pending, `nextRequest, `submitted, `infoRequest
      ensures Valid() && old(now) < now && oracle.clock(old(now)) <= oracle.clock(now)
      ensures Attributed(oracle, r, old(now), now)
      ensures submitted <= old(submitted) + 2
    {
      hide Sane;
      ghost var start := now;
      Tick();
      if oracle.calls.contended(now) { return Failure(Busy); }
      ghost var entered := now;
      r := QueryInfo(timeout);
      AttributedWithin(oracle, r, entered, now, start, now);
    }

    /** Whole queries of other callers, one after the other: they share the request this object keeps. */
    method OtherCallers()
      requires Valid()
      modifies `now, `pending, `nextRequest, `submitted, `infoRequest
      ensures Valid() && old(now) <= now && oracle.clock(old(now)) <= oracle.clock(now)
    {
      hide Sane, Attributed;
      var queries := oracle.calls.others(now);
      for i: nat := 0 to |queries|
        invariant Valid() && old(now) <= now && oracle.clock(old(now)) <= oracle.clock(now)
      {
        var r := QueryInfo(queries[i]);
      }
    }

    method BootQuery(timeout: int) returns (status: BootStatus, ghost at: nat)
      requires Valid()
      modifies `now
      ensures Valid() && old(now) < now && oracle.clock(old(now)) <= oracle.clock(now)
      ensures status.error.NoError? ==>
                old(now) < at <= now && oracle.peer(at) != 0 && status == oracle.device.booted(at)
    {
      hide Sane;
      Tick();
      var sent := now;
      at := now;
      Tick();
      var taken := oracle.calls.bootTaken(sent, now);
      TakenInTime(oracle, sent, now);
      match taken
      case Unfinished => status := BootFailure(Timeout);
      case Failed(error) => status := BootFailure(error);
      case Delivered(instant) => status, at := oracle.device.booted(instant), instant;
    }

    method BeginVerification() returns (error: Error)
      requires Valid()
      modifies `now, `verifying
      ensures Valid() && old(now) < now && oracle.clock(old(now)) <= oracle.clock(now)
      ensures old(verifying) ==> error.Busy? && verifying
      ensures !old(verifying) ==> (verifying <==> error.NoError?)
    {
      Tick();
      if verifying { return Busy; }
      error := oracle.calls.admission(now);
      verifying := error.NoError?;
    }

    method Reboot() returns (error: Error)
      requires Valid()
      modifies `now, `reboots
      ensures Valid() && old(now) < now && oracle.clock(old(now)) <= oracle.clock(now) && reboots == old(reboots) + 1
    {
      Tick();
      reboots := reboots + 1;
      error := oracle.calls.reboot(now);
    }

    method Sleep(duration: int)
      requires Valid()
      modifies `now
      ensures Valid() && old(now) < now && oracle.clock(now) >= oracle.clock(old(now)) + duration
    {
      now := oracle.wake(now, duration);
    }

    /** What has been read so far by `r`, and the instants it was read at. */
    ghost predicate Prepared(r: InstallResult, from: nat, told: nat, checked: nat)
      reads this
    {
      && Valid() && from <= told <= checked <= now
      && oracle.peer(told) == oracle.peer(checked) && oracle.peer(checked) != 0
      && r.error.NoError? && r.state.Unknown? && r.before == Some(oracle.device.told(told))
      && Compatible(r.before.value.protocol)
    }

    /** Ask the device, and tell whether a session other than the one checked answered and is still
        the current one. */
    method Sight(timeout: int, previousPeer: nat, ghost checked: nat)
      returns (info: Option<DeviceInfo>, peer: nat, ghost answered: nat)
      requires Valid() && checked <= now && previousPeer == oracle.peer(checked) != 0
      modifies `now, `pending, `nextRequest, `submitted, `infoRequest
      ensures Valid() && old(now) < now && oracle.clock(old(now)) <= oracle.clock(now)
      ensures info.Some? ==>
                old(now) <= answered <= now && checked < answered && info.value == oracle.device.told(answered) &&
                oracle.peer(answered) == peer == oracle.peer(now) && peer != 0 && NewSession(oracle, checked, answered)
    {
      hide Sane, Attributed, NewSession;
      ghost var start := now;
      answered := now;
      var r := GetInfo(timeout);
      if !r.error.NoError? || r.peer == 0 || r.peer == previousPeer { return None, 0, answered; }
      answered := AnsweredAt(oracle, r, start, now);
      peer := PeerSession();
      if peer != r.peer { return None, 0, answered; }
      SessionIsNew(oracle, checked, answered);
      info := r.info;
    }

    /** The boot status, if the session is still the one that answered. */
    method ReadBoot(timeout: int, peer: nat) returns (boot: Option<BootStatus>, ghost read: nat)
      requires Valid() && oracle.peer(now) == peer != 0
      modifies `now
      ensures Valid() && old(now) < now && oracle.clock(old(now)) <= oracle.clock(now)
      ensures boot.Some? && boot.value.error.NoError? ==>
                old(now) < read <= now && oracle.peer(read) == peer && boot.value == oracle.device.booted(read)
    {
      hide Sane;
      ghost var first := now;
      var status, at := BootQuery(timeout);
      read := at;
      var current := PeerSession();
      if current != peer { return None, read; }
      if status.error.NoError? { NotLeft(oracle, first, read, now); }
      boot := Some(status);
    }

    /** One look at the device after the reboot request. */
    method Poll(expected: Version, options: Options, deadline: int, r: InstallResult,
                ghost from: nat, ghost told: nat, ghost checked: nat, previousPeer: nat)
      returns (done: bool, s: InstallResult)
      requires Prepared(r, from, told, checked) && previousPeer == oracle.peer(checked)
      requires r.before.value.firmware != expected && ValidOptions(options)
      modifies `now, `pending, `nextRequest, `submitted, `infoRequest, `sightings
      ensures old(now) < now && oracle.clock(old(now)) <= oracle.clock(now) && Valid()
      ensures s.before == r.before && s.reboot == r.reboot
      ensures !done ==> Prepared(s, from, told, checked)
      ensures done ==> Proven(oracle, s, expected, from, now) && !s.error.Timeout?
      ensures old(sightings) <= sightings
      ensures !done ==> Undecided(expected, r.before.value, sightings, |old(sightings)|)
    {
      hide Sane, Attributed, NewSession, Proven, Compatible, SameDevice, PrimaryConfirmed, Conclusion;
      done, s := false, r;
      var remaining := deadline - oracle.clock(now);
      var info, peer, answered := Sight(Lesser(options.query, remaining), previousPeer, checked);
      if info.None? { return; }
      s := s.(current := info, boot := None);
      var current, before := info.value, r.before.value;
      if !SameDevice(current, before) || !Compatible(current.protocol) {
        s := s.(error := if !SameDevice(current, before) then IdentityMismatch else ProtocolMismatch);
        FailureIsProven(oracle, s, expected, from, now);
        return true, s;
      }
      remaining := deadline - oracle.clock(now);
      if remaining <= 0 { return; }
      var boot, read := ReadBoot(Lesser(options.query, remaining), peer);
      if boot.None? { return; }
      sightings := sightings + [Sighting(current, boot.value)];
      s := s.(boot := boot);
      var conclusion := Conclusion(expected, before, current, boot.value);
      if conclusion.Unknown? { return; }
      OnlyConfirmed(expected, before, current, boot.value);
      s := s.(state := conclusion);
      ProvenBy(oracle, s, expected, from, now, Witness(told, checked, answered, read));
      done := true;
    }

    /** Poll until a verdict or the deadline; every round takes time, so the loop ends. */
    method AwaitVerdict(expected: Version, options: Options, deadline: int, r: InstallResult,
                        ghost from: nat, ghost told: nat, ghost checked: nat, previousPeer: nat)
      returns (s: InstallResult)
      requires Prepared(r, from, told, checked) && previousPeer == oracle.peer(checked)
      requires r.before.value.firmware != expected && ValidOptions(options)
      modifies `now, `pending, `nextRequest, `submitted, `infoRequest, `sightings
      ensures Valid() && old(now) <= now && oracle.clock(old(now)) <= oracle.clock(now)
      ensures Proven(oracle, s, expected, from, now) && s.before == r.before && s.reboot == r.reboot
      ensures old(sightings) <= sightings
      ensures s.error.Timeout? ==>
                oracle.clock(now) >= deadline && Undecided(expected, r.before.value, sightings, |old(sightings)|)
    {
      hide Sane, Observed, Proven;
      s := r;
      ghost var entry := now;
      while deadline - oracle.clock(now) > 0
        invariant Prepared(s, from, told, checked) && s.before == r.before && s.reboot == r.reboot
        invariant old(now) <= now && oracle.clock(old(now)) <= oracle.clock(now)
        invariant old(sightings) <= sightings
        invariant Undecided(expected, r.before.value, sightings, |old(sightings)|)
        decreases deadline - oracle.clock(now)
      {
        OtherCallers();
        var done: bool;
        done, s := Poll(expected, options, deadline, s, from, told, checked, previousPeer);
        if done { return; }
        var remaining := deadline - oracle.clock(now);
        var pause := if remaining < options.poll then remaining else options.poll;
        Sleep(if pause < 0 then 0 else pause);
      }
      s := s.(error := Timeout);
      FailureIsProven(oracle, s, expected, from, now);
    }

    /** Everything that must hold before a reset is requested. */
    predicate MayReboot(r: InstallResult, expected: Version) {
      && r.before.Some? && Compatible(r.before.value.protocol)
      && r.before.value.serial != [] && r.before.value.board != [] && r.before.value.firmware != expected
    }

    method RebootAndWait(expected: Version, options: Options) returns (r: InstallResult)
      requires Valid()
      modifies this
      ensures Valid() && old(now) <= now
      ensures Proven(oracle, r, expected, old(now), now)
      ensures old(reboots) <= reboots <= old(reboots) + 1
      ensures reboots > old(reboots) ==> MayReboot(r, expected)
      ensures if old(verifying) then verifying && reboots == old(reboots) && !r.error.NoError? else !verifying
      ensures old(sightings) <= sightings
      ensures r.error.Timeout? && reboots > old(reboots) && r.reboot in {NoError, Timeout, TransportError} ==>
                oracle.clock(now) >= oracle.clock(old(now)) + options.boot &&
                Undecided(expected, r.before.value, sightings, |old(sightings)|)
    {
      r := NO_RESULT;
      if !ValidOptions(options) { return r.(error := InvalidArgument); }
      hide Sane, Observed, Proven, Compatible, Undecided;
      ghost var start := now;
      var admission := BeginVerification();
      if !admission.NoError? {
        r := r.(error := admission);
        FailureIsProven(oracle, r, expected, start, now);
        return;
      }
      ghost var begun := now;
      r := Verify(expected, options);
      ProvenSince(oracle, r, expected, begun, now, start);
      verifying := false;
    }

    /** The part that runs with the verification flag set. */
    method Verify(expected: Version, options: Options) returns (r: InstallResult)
      requires Valid() && ValidOptions(options)
      modifies `now, `pending, `nextRequest, `submitted, `infoRequest, `sightings, `reboots
      ensures Valid() && old(now) <= now && oracle.clock(old(now)) <= oracle.clock(now)
      ensures Proven(oracle, r, expected, old(now), now)
      ensures old(reboots) <= reboots <= old(reboots) + 1
      ensures reboots > old(reboots) ==> MayReboot(r, expected)
      ensures old(sightings) <= sightings
      ensures r.error.Timeout? && reboots > old(reboots) && r.reboot in {NoError, Timeout, TransportError} ==>
                oracle.clock(now) >= oracle.clock(old(now)) + options.boot &&
                Undecided(expected, r.before.value, sightings, |old(sightings)|)
    {
      hide Sane, Attributed, Observed;
      ghost var start := now;
      r := NO_RESULT;
      OtherCallers();
      ghost var asked := now;
      var before := GetInfo(options.query);
      if !before.error.NoError? { return r.(error := before.error); }
      AttributedWithin(oracle, before, asked, now, start, now);
      ghost var told := AnsweredAt(oracle, before, start, now);
      r := r.(before := before.info);
      if !Compatible(before.info.value.protocol) { return r.(error := ProtocolMismatch); }
      if before.info.value.serial == [] || before.info.value.board == [] { return r.(error := IdentityMismatch); }
      if expected == before.info.value.firmware { return r.(error := InvalidArgument); }
      if before.peer == 0 { return r.(error := ProtocolError); }
      var peer := PeerSession();
      if before.peer != peer { return r.(error := TransportError); }
      ghost var checked := now;
      var reboot := Reboot();
      r := r.(reboot := reboot);
      if reboot !in {NoError, Timeout, TransportError} { return r.(error := reboot); }
      Tick();
      var deadline := oracle.clock(now) + options.boot;
      r := AwaitVerdict(expected, options, deadline, r, start, told, checked, before.peer);
    }
  }

  lemma AnsweredAt(o: Oracle, r: InfoResult, from: nat, to: nat) returns (d: nat)
    requires Attributed(o, r, from, to) && r.error.NoError?
    ensures SaidIn(o, r, from, to, d)
  {
    d :| SaidIn(o, r, from, to, d);
  }
}
