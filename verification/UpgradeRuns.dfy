/** Every interleaving of the upgrade client's callers with its owner. An event is one
    critical section; a caller waiting on the condition variable is between two of them. */
module UpgradeRuns {
  import opened Clock32
  import opened UpgradeModel
  import opened FirmwareUpdate
  import opened Wrappers

  /** `bootCaller` and `rebootCaller` are the calls that hold the two call mutexes (0: none);
      `bootFor` and `rebootFor` are the calls the pending requests were made for. */
  datatype World = World(
    s: State, calls: nat, bootCaller: nat, bootFor: nat, rebootCaller: nat, rebootFor: nat, log: seq<Entry>)

  const START: World := World(INITIAL, 0, 0, 0, 0, 0, [])

  datatype Event =
    | Connected(running: bool)
    | BeginVerify
    | EndVerify
    | Upload(image: seq<int>, options: Options, now: Word)
    | CancelUpload
    | CallBoot(timeout: int, now: Word)
    | WakeBoot
    | LeaveBoot
    | CallReboot(mode: RebootMode, timeout: int, verification: bool, now: Word)
    | WakeReboot
    | LeaveReboot
    | OwnerPoll(now: Word, environment: Environment)
    | Transport(connected: bool, now: Word, report: Report<RebootMode>)
    | Peer(session: nat)
    | Lose(departed: bool, now: Word, report: Report<RebootMode>)

  // What the owner's sections show

  function BootEntries(call: nat, b: BootPart, c: BootPart): seq<Entry> {
    if b.pending && !c.pending then [BootAnswered(call, c.result)] else []
  }

  function RebootEntries(call: nat, r: RebootPart, t: RebootPart): seq<Entry> {
    if r.id == 0 && t.id != 0 then [RebootAdmitted(call)]
    else if !r.result.accepted && t.result.accepted then [RebootAccepted(call)]
    else []
  }

  predicate Ends(u: UploadPart, v: UploadPart) { Active(u.progress) && !Active(v.progress) }

  predicate AsksSender(u: UploadPart, now: Word) {
    && (u.progress.state == Uploading || u.progress.state == Cancelling)
    && Elapsed(now, u.since) < u.options.timeout
  }

  function UploadEntries(u: UploadPart, v: UploadPart, now: Word, sender: Sender): seq<Entry> {
    (if u.id == 0 && v.id != 0 then [StartAdmitted] else [])
    + (if AsksSender(u, now) then [SenderReported(sender.state)] else [])
    + (if u.progress.error == NoError && Active(v.progress) && v.progress.error != NoError then [FailureRecorded] else [])
    + (if Ends(u, v) then [UploadEnded(v.progress.state)] else [])
  }

  function Polled(w: World, now: Word, e: Environment): World {
    var t := Poll(w.s, now, e);
    w.(s := t, log := w.log + BootEntries(w.bootFor, w.s.boot, t.boot)
                    + RebootEntries(w.rebootFor, w.s.reboot, t.reboot)
                    + UploadEntries(w.s.upload, t.upload, now, e.sender))
  }

  function Lost(w: World, departed: bool, now: Word, report: Report<RebootMode>): World {
    var (collected, _) := Collect(w.s.reboot, w.s.live, now, report);
    var t := Disconnect(w.s, departed, now, report);
    w.(s := t, log := w.log + RebootEntries(w.rebootFor, w.s.reboot, collected)
                    + (if departed then [Departure] else [])
                    + (if Ends(w.s.upload, t.upload) then [UploadEnded(t.upload.progress.state)] else [])
                    + BootEntries(w.bootFor, w.s.boot, t.boot))
  }

  // What the runtime and the sender promise

  predicate FreshFor(live: set<nat>, start: Start) { start.Started? ==> start.id != 0 && start.id !in live }

  /** A call is started under an id that is not zero and not in use at that point of the poll; one
      released a moment before may be used again. */
  predicate FreshStarts(s: State, now: Word, e: Environment) {
    var (boot, live1) := PollBoot(s.boot, s.live, now, e.bootStart, e.bootReport);
    var (reboot, live2) := PollReboot(s.reboot, live1, now, e.rebootStart, e.rebootReport);
    FreshFor(s.live, e.bootStart) && FreshFor(live1, e.rebootStart) && FreshFor(live2, e.uploadStart)
  }

  function Next(w: World, e: Event): World {
    var s := w.s;
    match e
    case Connected(running) => w.(s := s.(running := running))
    case BeginVerify => w.(s := BeginVerification(s).0)
    case EndVerify => w.(s := EndVerification(s))
    case Upload(image, options, now) =>
      var (t, error) := StartUpload(s, image, options, now);
      w.(s := t, log := if error == NoError then w.log + [UploadQueued(|image|)] else w.log)
    case CancelUpload => w.(s := Cancel(s))
    case CallBoot(timeout, now) =>
      if w.bootCaller != 0 then w
      else
        var (t, error) := EnterBoot(s, timeout, now);
        if error != NoError then w
        else w.(s := t, calls := w.calls + 1, bootCaller := w.calls + 1, bootFor := w.calls + 1)
    case WakeBoot =>
      if w.bootCaller == 0 || !s.boot.done then w
      else w.(bootCaller := 0, log := w.log + [BootReturned(w.bootCaller, s.boot.result)])
    case LeaveBoot =>
      if w.bootCaller == 0 || s.boot.done then w
      else w.(bootCaller := 0, log := w.log + [GaveUp(w.bootCaller)])
    case CallReboot(mode, timeout, verification, now) =>
      if w.rebootCaller != 0 then w
      else
        var (t, error) := EnterReboot(s, mode, timeout, verification, now);
        if error != NoError then w
        else w.(s := t, calls := w.calls + 1, rebootCaller := w.calls + 1, rebootFor := w.calls + 1)
    case WakeReboot =>
      if w.rebootCaller == 0 || !s.reboot.done then w
      else w.(rebootCaller := 0, log := w.log + [RebootReturned(w.rebootCaller, s.reboot.result)])
    case LeaveReboot =>
      if w.rebootCaller == 0 || s.reboot.done then w
      else w.(rebootCaller := 0, log := w.log + [RebootReturned(w.rebootCaller, s.reboot.result.(error := Timeout))])
    case OwnerPoll(now, environment) => if FreshStarts(s, now, environment) then Polled(w, now, environment) else w
    case Transport(connected, now, report) =>
      var v := w.(s := s.(connected := connected));
      if s.connected && !connected then Lost(v, true, now, report) else v
    case Peer(session) => w.(s := s.(peerSession := session))
    case Lose(departed, now, report) => Lost(w, departed, now, report)
  }

  // The shared state's invariant

  /** The runtime's live calls are exactly the ids the client remembers: none leaks, none is
      forgotten, none is shared. */
  predicate Table(start: nat, boot: nat, reboot: nat, live: set<nat>) {
    && 0 !in live
    && (forall id :: id in live ==> id == start || id == boot || id == reboot)
    && (start != 0 ==> start in live && start != boot && start != reboot)
    && (boot != 0 ==> boot in live && boot != reboot)
    && (reboot != 0 ==> reboot in live)
  }

  predicate UploadOk(u: UploadPart) {
    && (u.id != 0 <==> u.progress.state == Starting)
    && (if Active(u.progress) then |u.image| == u.progress.total > 0 else u.image == [])
    && (Active(u.progress) && u.progress.error != NoError ==>
          u.progress.state == Cancelling && u.progress.error == ProtocolError)
    && (u.progress.state == Completed ==> u.progress.error == NoError)
  }

  predicate BootOk(b: BootPart) { (b.id != 0 ==> b.pending) && (b.pending ==> !b.done) }

  predicate RebootOk(r: RebootPart) {
    && (r.id != 0 ==> r.pending && !r.result.accepted)
    && (r.pending ==> !r.done && r.result.error == NoError && !r.result.departed)
    && (r.done && r.result.error == NoError ==> r.result.accepted && r.result.departed)
  }

  predicate Inv(s: State) {
    && !(Active(s.upload.progress) && (s.reboot.pending || s.verifying))
    && UploadOk(s.upload) && BootOk(s.boot) && RebootOk(s.reboot)
    && Table(s.upload.id, s.boot.id, s.reboot.id, s.live)
  }

  /** A poll only ever adds the call it starts. */
  predicate GrowsBy(live: set<nat>, after: set<nat>, start: Start) {
    forall id :: id in after ==> id in live || (start.Started? && id == start.id)
  }

  lemma PollBootInv(b: BootPart, live: set<nat>, start_: nat, reboot: nat, now: Word, start: Start, report: Report<BootStatus>)
    requires BootOk(b) && Table(start_, b.id, reboot, live) && FreshFor(live, start)
    ensures var (c, after) := PollBoot(b, live, now, start, report);
            BootOk(c) && Table(start_, c.id, reboot, after) && GrowsBy(live, after, start)
  {
  }

  lemma PollRebootInv(r: RebootPart, live: set<nat>, start_: nat, boot: nat, now: Word, start: Start, report: Report<RebootMode>)
    requires RebootOk(r) && Table(start_, boot, r.id, live) && FreshFor(live, start)
    ensures var (t, after) := PollReboot(r, live, now, start, report);
            && RebootOk(t) && Table(start_, boot, t.id, after) && GrowsBy(live, after, start)
            && (t.pending ==> r.pending)
  {
  }

  lemma PollStartInv(u: UploadPart, live: set<nat>, boot: nat, reboot: nat, now: Word, e: Environment)
    requires UploadOk(u) && Table(u.id, boot, reboot, live) && FreshFor(live, e.uploadStart)
    requires u.progress.state == Queued || u.progress.state == Starting
    ensures var (v, after) := PollStart(u, live, e.uploadStart, e.uploadReport, e.senderStarts);
            UploadOk(v) && Table(v.id, boot, reboot, after)
  {
    hide Usable, StartAnswered;
    if u.id != 0 && e.uploadReport.Done? {
      AnsweredIsOk(u, e.uploadReport.timedOut, e.uploadReport.status, e.uploadReport.response, e.senderStarts);
    }
  }

  lemma AnsweredIsOk(u: UploadPart, timedOut: bool, status: int, response: Option<StartReply>, senderStarts: bool)
    requires UploadOk(u) && (u.progress.state == Queued || u.progress.state == Starting)
    ensures var v := StartAnswered(u, timedOut, status, response, senderStarts); UploadOk(v) && v.id == 0
  {
    hide Usable;
  }

  lemma PollSenderInv(u: UploadPart, sender: Sender)
    requires UploadOk(u) && (u.progress.state == Uploading || u.progress.state == Cancelling)
    ensures UploadOk(PollSender(u, sender)) && PollSender(u, sender).id == u.id == 0
  {
  }

  lemma PollUploadInv(u: UploadPart, live: set<nat>, boot: nat, reboot: nat, now: Word, e: Environment)
    requires UploadOk(u) && Table(u.id, boot, reboot, live) && FreshFor(live, e.uploadStart)
    ensures var (v, after) := PollUpload(u, live, now, e);
            && UploadOk(v) && Table(v.id, boot, reboot, after)
            && (Active(v.progress) ==> Active(u.progress))
  {
    hide PollStart, PollSender;
    if u.progress.state == Queued || u.progress.state == Starting {
      PollStartInv(u, live, boot, reboot, now, e);
    } else if Active(u.progress) {
      PollSenderInv(u, e.sender);
    }
  }

  lemma PollInv(s: State, now: Word, e: Environment)
    requires Inv(s) && FreshStarts(s, now, e)
    ensures Inv(Poll(s, now, e))
  {
    hide PollBoot, PollReboot, PollUpload, Table, UploadOk, BootOk, RebootOk, GrowsBy;
    var (boot, live1) := PollBoot(s.boot, s.live, now, e.bootStart, e.bootReport);
    PollBootInv(s.boot, s.live, s.upload.id, s.reboot.id, now, e.bootStart, e.bootReport);
    var (reboot, live2) := PollReboot(s.reboot, live1, now, e.rebootStart, e.rebootReport);
    PollRebootInv(s.reboot, live1, s.upload.id, boot.id, now, e.rebootStart, e.rebootReport);
    PollUploadInv(s.upload, live2, boot.id, reboot.id, now, e);
  }

  lemma DisconnectInv(s: State, departed: bool, now: Word, report: Report<RebootMode>)
    requires Inv(s)
    ensures Inv(Disconnect(s, departed, now, report))
    ensures var t := Disconnect(s, departed, now, report);
            t.live == {} && !t.boot.pending && !t.reboot.pending && !Active(t.upload.progress)
  {
    PollRebootInv(s.reboot, s.live, s.upload.id, s.boot.id, now, TryLater, report);
  }

  lemma PolledInv(w: World, e: Event)
    requires Inv(w.s) && e.OwnerPoll?
    ensures Inv(Next(w, e).s)
  {
    hide Inv, Poll, FreshStarts;
    if FreshStarts(w.s, e.now, e.environment) { PollInv(w.s, e.now, e.environment); }
  }

  lemma LostInv(w: World, e: Event)
    requires Inv(w.s) && (e.Transport? || e.Lose?)
    ensures Inv(Next(w, e).s)
  {
    if e.Transport? { Reconnected(w.s, e.connected); }
    hide Inv, Disconnect, Collect;
    if e.Transport? {
      DisconnectInv(w.s.(connected := e.connected), true, e.now, e.report);
    } else {
      DisconnectInv(w.s, e.departed, e.now, e.report);
    }
  }

  lemma Reconnected(s: State, connected: bool)
    requires Inv(s)
    ensures Inv(s.(connected := connected))
  {
  }

  lemma CallerInv(w: World, e: Event)
    requires Inv(w.s) && !e.OwnerPoll? && !e.Transport? && !e.Lose?
    ensures Inv(Next(w, e).s)
  {
    hide Table;
  }

  /** Every critical section of every thread keeps the shared state's invariant. */
  lemma NextInv(w: World, e: Event)
    requires Inv(w.s)
    ensures Inv(Next(w, e).s)
  {
    match e
    case OwnerPoll(now, environment) => PolledInv(w, e);
    case Transport(connected, now, report) => LostInv(w, e);
    case Lose(departed, now, report) => LostInv(w, e);
    case _ => CallerInv(w, e);
  }
}
