/** The firmware upgrade client's data and the effect of each of its critical sections. The RPC
    runtime and the bulk sender are environments: what they answer is a parameter, and the
    runtime's table of live calls is the field `live`. */
module UpgradeModel {
  import opened Clock32
  import opened FirmwareUpdate
  import opened Wrappers

  datatype UploadState =
    | Idle | Queued | Starting | Uploading | Cancelling | Completed | Failed | Aborted

  datatype Progress = Progress(
    state: UploadState, error: Error, deviceStatus: int, total: nat, acknowledged: nat, transferId: nat)

  datatype RebootMode = Normal | TryBoot
  datatype RebootResult = RebootResult(error: Error, deviceStatus: int, accepted: bool, departed: bool)
  datatype Options = Options(timeout: int, statusTimeout: Word, busyRetry: Word)

  /** The boot status, reboot and upload machines; each has at most one call, under `id`. */
  datatype BootPart = BootPart(pending: bool, done: bool, id: nat, since: Word, timeout: Word, result: BootStatus)
  datatype RebootPart = RebootPart(
    pending: bool, done: bool, id: nat, since: Word, timeout: Word, mode: RebootMode, result: RebootResult)
  datatype UploadPart = UploadPart(
    cancel: bool, progress: Progress, image: seq<int>, options: Options, since: Word, id: nat)

  datatype State = State(
    running: bool, verifying: bool, connected: bool, peerSession: nat,
    upload: UploadPart, boot: BootPart, reboot: RebootPart, live: set<nat>)

  /** What starting an RPC comes to. A started call has an id the runtime is not using. */
  datatype Start = Started(id: nat) | TryLater | Unstartable

  /** What inspecting a call shows. A finished one has an application status, and a response
      if one was decoded with the fields it must have. */
  datatype Report<+T> = Missing | Working | Done(timedOut: bool, status: int, response: Option<T>)

  datatype StartReply = StartReply(transferId: nat, writeAlign: nat, maxChunk: nat, nextOffset: nat)

  datatype SenderState = Sending | SenderCompleted | SenderAborted | SenderFailed
  datatype Sender = Sender(state: SenderState, nextOffset: nat, status: int, oddPhase: bool)

  datatype Environment = Environment(
    bootStart: Start, bootReport: Report<BootStatus>,
    rebootStart: Start, rebootReport: Report<RebootMode>,
    uploadStart: Start, uploadReport: Report<StartReply>, senderStarts: bool, sender: Sender)

  /** What an observer sees of one critical section, in order. */
  datatype Entry =
    | BootAnswered(call: nat, status: BootStatus)
    | BootReturned(call: nat, status: BootStatus)
    | RebootAdmitted(call: nat)
    | RebootAccepted(call: nat)
    | Departure
    | RebootReturned(call: nat, result: RebootResult)
    | GaveUp(call: nat)
    | UploadQueued(total: nat)
    | StartAdmitted
    | SenderReported(sender: SenderState)
    | FailureRecorded
    | UploadEnded(outcome: UploadState)

  const MAXIMUM_CHUNK: nat := 2031
  const NO_PROGRESS: Progress := Progress(Idle, NoError, 0, 0, 0, 0)
  const NO_REBOOT: RebootResult := RebootResult(NoError, 0, false, false)
  const INITIAL: State := State(
    false, false, true, 0,
    UploadPart(false, NO_PROGRESS, [], Options(120000, 3000, 10), 0, 0),
    BootPart(false, false, 0, 0, 0, BootFailure(NoError)),
    RebootPart(false, false, 0, 0, 0, TryBoot, NO_REBOOT),
    {})

  predicate Active(p: Progress) {
    p.state == Queued || p.state == Starting || p.state == Uploading || p.state == Cancelling
  }

  /** Whether the device is spoken for, as the endpoint's submissions see it. */
  predicate Claimed(s: State) { Active(s.upload.progress) || s.reboot.pending || s.verifying }

  predicate ValidWait(milliseconds: int) { 0 < milliseconds < HALF }

  // Admission

  function BeginVerification(s: State): (State, Error) {
    if !s.running then (s, NotConnected)
    else if Claimed(s) then (s, Busy)
    else (s.(verifying := true), NoError)
  }

  function EndVerification(s: State): State { s.(verifying := false) }

  predicate ValidUpload(image: seq<int>, options: Options) {
    image != [] && ValidWait(options.timeout) && 0 < options.statusTimeout < HALF && 0 < options.busyRetry < HALF
  }

  function StartUpload(s: State, image: seq<int>, options: Options, now: Word): (State, Error) {
    if !ValidUpload(image, options) then (s, InvalidArgument)
    else if !s.running then (s, NotConnected)
    else if Claimed(s) then (s, Busy)
    else (s.(upload := UploadPart(false, Progress(Queued, NoError, 0, |image|, 0, 0), image, options, now, s.upload.id)),
          NoError)
  }

  /** The caller's entry section; it then waits unless an error is returned. */
  function EnterBoot(s: State, timeout: int, now: Word): (State, Error) {
    if !ValidWait(timeout) then (s, InvalidArgument)
    else if !s.running then (s, NotConnected)
    else if s.boot.pending then (s, Busy)
    else (s.(boot := s.boot.(pending := true, done := false, since := now, timeout := timeout)), NoError)
  }

  function EnterReboot(s: State, mode: RebootMode, timeout: int, verification: bool, now: Word): (State, Error) {
    if !ValidWait(timeout) then (s, InvalidArgument)
    else if !s.running then (s, NotConnected)
    else if Active(s.upload.progress) || s.reboot.pending || (s.verifying && !verification) then (s, Busy)
    else (s.(reboot := RebootPart(true, false, s.reboot.id, now, timeout, mode, NO_REBOOT)), NoError)
  }

  function Cancel(s: State): State {
    if Active(s.upload.progress) then s.(upload := s.upload.(cancel := true)) else s
  }

  // The boot status machine

  function AnswerBoot(b: BootPart, result: BootStatus): BootPart {
    b.(result := result, pending := false, done := true, id := 0)
  }

  function BootReply(timedOut: bool, status: int, response: Option<BootStatus>): BootStatus {
    if timedOut then BootFailure(Timeout).(deviceStatus := status)
    else if status != 0 then BootFailure(DeviceRejected).(deviceStatus := status)
    else if response.Some? then response.value.(error := NoError, deviceStatus := 0)
    else BootFailure(ProtocolError)
  }

  function PollBoot(b: BootPart, live: set<nat>, now: Word, start: Start, report: Report<BootStatus>)
    : (BootPart, set<nat>)
  {
    if !b.pending then (b, live)
    else if Elapsed(now, b.since) >= b.timeout then (AnswerBoot(b, BootFailure(Timeout)), live - {b.id})
    else if b.id == 0 then
      match start
      case Started(id) => (b.(id := id), live + {id})
      case TryLater => (b, live)
      case Unstartable => (AnswerBoot(b, BootFailure(TransportError)), live)
    else
      match report
      case Missing => (AnswerBoot(b, BootFailure(ProtocolError)), live - {b.id})
      case Working => (b, live)
      case Done(timedOut, status, response) => (AnswerBoot(b, BootReply(timedOut, status, response)), live - {b.id})
  }

  // The reboot machine

  /** The reboot phase ends with this result. */
  function AnswerReboot(r: RebootPart, result: RebootResult): RebootPart {
    r.(result := result, pending := false, done := true, id := 0)
  }

  function RebootReply(timedOut: bool, status: int, response: Option<RebootMode>, mode: RebootMode): RebootResult {
    if timedOut then RebootResult(Timeout, status, false, false)
    else if status != 0 then RebootResult(DeviceRejected, status, false, false)
    else if response == Some(mode) then RebootResult(NoError, status, true, false)
    else RebootResult(ProtocolError, status, false, false)
  }

  /** An accepted request releases its call but goes on waiting for the device to depart. */
  function PollReboot(r: RebootPart, live: set<nat>, now: Word, start: Start, report: Report<RebootMode>)
    : (RebootPart, set<nat>)
  {
    if !r.pending then (r, live)
    else if Elapsed(now, r.since) >= r.timeout then (AnswerReboot(r, r.result.(error := Timeout)), live - {r.id})
    else if r.result.accepted then (r, live)
    else if r.id == 0 then
      match start
      case Started(id) => (r.(id := id), live + {id})
      case TryLater => (r, live)
      case Unstartable => (AnswerReboot(r, NO_REBOOT.(error := TransportError)), live)
    else
      match report
      case Missing => (AnswerReboot(r, NO_REBOOT.(error := ProtocolError)), live - {r.id})
      case Working => (r, live)
      case Done(timedOut, status, response) =>
        var result := RebootReply(timedOut, status, response, r.mode);
        (if result.accepted then r.(result := result, id := 0) else AnswerReboot(r, result), live - {r.id})
  }

  // The upload machine

  function Outcome(error: Error): UploadState {
    if error == NoError then Completed else if error == Cancelled then Aborted else Failed
  }

  function Finish(u: UploadPart, error: Error): UploadPart {
    u.(progress := u.progress.(error := error, state := Outcome(error)), image := [])
  }

  predicate PowerOfTwo(n: nat) { n == 1 || (n > 1 && n % 2 == 0 && PowerOfTwo(n / 2)) }

  predicate Usable(r: StartReply) {
    && r.transferId != 0 && PowerOfTwo(r.writeAlign)
    && r.writeAlign <= r.maxChunk <= MAXIMUM_CHUNK && r.maxChunk % r.writeAlign == 0 && r.nextOffset == 0
  }

  /** A finished StartUpgrade call, already released. */
  function StartAnswered(u: UploadPart, timedOut: bool, status: int, response: Option<StartReply>, senderStarts: bool)
    : UploadPart
  {
    var v := u.(id := 0, progress := u.progress.(deviceStatus := status));
    if status != 0 then Finish(v, DeviceRejected)
    else if response.None? || !Usable(response.value) then Finish(v, if timedOut then Timeout else ProtocolError)
    else if !senderStarts then Finish(v, ProtocolError)
    else v.(progress := v.progress.(state := Uploading, transferId := response.value.transferId))
  }

  function PollStart(u: UploadPart, live: set<nat>, start: Start, report: Report<StartReply>, senderStarts: bool)
    : (UploadPart, set<nat>)
  {
    if u.id == 0 then
      match start
      case Started(id) => (u.(id := id, progress := u.progress.(state := Starting)), live + {id})
      case TryLater => (u, live)
      case Unstartable => (Finish(u, TransportError), live)
    else
      match report
      case Missing => (Finish(u, ProtocolError).(id := 0), live - {u.id})
      case Working => (u, live)
      case Done(timedOut, status, response) => (StartAnswered(u, timedOut, status, response, senderStarts), live - {u.id})
  }

  /** A transfer in progress, after the sender has been polled. A cancelled or failed transfer
      goes on as an abort handshake, which keeps the failure it was started for. */
  function PollSender(u: UploadPart, sender: Sender): UploadPart {
    var state := if u.cancel then Cancelling else u.progress.state;
    var v := u.(progress := u.progress.(state := state, acknowledged := sender.nextOffset));
    match sender.state
    case SenderCompleted => Finish(v, NoError)
    case SenderAborted => Finish(v, if v.progress.error == NoError then Cancelled else v.progress.error)
    case SenderFailed =>
      if state == Cancelling then Finish(v, TransportError)
      else if sender.oddPhase then Finish(v.(progress := v.progress.(deviceStatus := sender.status)), ProtocolError)
      else v.(progress := v.progress.(error := ProtocolError, deviceStatus := sender.status, state := Cancelling))
    case Sending => if sender.oddPhase then Finish(v, ProtocolError) else v
  }

  function PollUpload(u: UploadPart, live: set<nat>, now: Word, e: Environment): (UploadPart, set<nat>) {
    if !Active(u.progress) then (u, live)
    else if Elapsed(now, u.since) >= u.options.timeout then (Finish(u, Timeout).(id := 0), live - {u.id})
    else if u.cancel && u.progress.state == Queued then (Finish(u, Cancelled), live)
    else if u.progress.state == Queued || u.progress.state == Starting then
      PollStart(u, live, e.uploadStart, e.uploadReport, e.senderStarts)
    else (PollSender(u, e.sender), live)
  }

  function Poll(s: State, now: Word, e: Environment): State {
    var (boot, live1) := PollBoot(s.boot, s.live, now, e.bootStart, e.bootReport);
    var (reboot, live2) := PollReboot(s.reboot, live1, now, e.rebootStart, e.rebootReport);
    var (upload, live3) := PollUpload(s.upload, live2, now, e);
    s.(boot := boot, reboot := reboot, upload := upload, live := live3)
  }

  // Loss of the peer

  /** A response may have arrived but not been collected when the loss is seen. */
  function Collect(r: RebootPart, live: set<nat>, now: Word, report: Report<RebootMode>): (RebootPart, set<nat>) {
    if r.pending && r.id != 0 then PollReboot(r, live, now, TryLater, report) else (r, live)
  }

  function LoseUpload(u: UploadPart): UploadPart {
    if Active(u.progress) then Finish(u, TransportError).(id := 0) else u.(id := 0)
  }

  function LoseBoot(b: BootPart): BootPart {
    if b.pending then AnswerBoot(b, BootFailure(TransportError)) else b.(id := 0)
  }

  function LoseReboot(r: RebootPart, departed: bool): RebootPart {
    if r.pending then
      AnswerReboot(r, r.result.(departed := departed,
                                error := if departed && r.result.accepted then NoError else TransportError))
    else r.(id := 0)
  }

  /** Every call is cancelled and released, and everything that was waiting is told. */
  function Abandon(s: State, departed: bool): State {
    s.(upload := LoseUpload(s.upload), boot := LoseBoot(s.boot), reboot := LoseReboot(s.reboot, departed),
       live := s.live - {s.boot.id, s.upload.id, s.reboot.id})
  }

  function Disconnect(s: State, departed: bool, now: Word, report: Report<RebootMode>): State {
    var (reboot, live) := Collect(s.reboot, s.live, now, report);
    Abandon(s.(reboot := reboot, live := live), departed)
  }

  /** Only the edge from connected to not connected counts as a loss. */
  function TransportState(s: State, connected: bool, now: Word, report: Report<RebootMode>): State {
    var t := s.(connected := connected);
    if s.connected && !connected then Disconnect(t, true, now, report) else t
  }
}
