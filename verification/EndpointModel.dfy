/** The endpoint's data and the effect of each of its critical sections, as functions on values.
    The class in Endpoint.dfy is proved against these functions; EndpointRuns.dfy interleaves them. */
module EndpointModel {
  import opened Clock32
  import opened DeviceTypes
  import opened Wrappers

  const CAPACITY: nat := 8
  const PUBLIC_CAPACITY: nat := 7
  const NO_SLOT: nat := CAPACITY
  const NAME_CAPACITY: nat := 32
  const ID_WRAP: nat := 0x1_0000_0000_0000_0000
  const MAXIMUM_ID: nat := ID_WRAP - 1

  datatype Status =
    | Ok | NotReady | QueueFull | Busy | InvalidArgument | Unsupported | NoLease | NoData
    | CodecError | LinkError | Timeout | Cancelled | DomainError | InternalError

  datatype OperationState =
    | Unknown | Queued | LinkPending | WaitingResponse
    | Completed | TimedOut | Dropped | LinkFailed | Rejected

  datatype LeaseState =
    | Released | AcquireQueued | Acquiring | Held | RenewQueued | Renewing
    | ReleaseQueued | Releasing | Expired | Failed

  datatype Kind =
    | NoKind | AcquireLease | ReleaseLease | GetDeviceInfo | SetDeviceInfo
    | GetDeviceSettings | SetDeviceSettings | SetArmControlMode | SetGripperControlMode
    | SetArmMode | Home | SetZero | ClearError | ClearFaults | EmergencyStop
    | MotorRegisterRead | MotorRegisterWrite | MotorStoreParameters | MotorSetZero

  datatype TorqueFold = TorqueFold(continuous: real, peak: real, capacity: real, ramp: real)
  datatype JointRange = JointRange(min: real, max: real)
  /** `finite` says that every number is finite; the numbers themselves are reals. */
  datatype DeviceSettings = DeviceSettings(
    period: nat, finite: bool, folds: seq<TorqueFold>, ranges: seq<JointRange>)

  datatype Request = Request(leaseToken: nat, leaseTimeout: Word, joint: nat, register: nat)

  datatype Payload = NoPayload | Info(info: DeviceInfo) | Settings(settings: DeviceSettings) | Register(value: real)

  datatype Response =
    | GrantReply(hasToken: bool, token: nat, hasTimeout: bool, timeout: Word)
    | InfoReply(hasInfo: bool, info: DeviceInfo)
    | SettingsReply(hasSettings: bool, settings: DeviceSettings)
    | RegisterReply(hasJoint: bool, joint: nat, hasRegister: bool, register: nat,
                    hasValue: bool, finite: bool, value: real)
    | PlainReply

  datatype RpcStatus = Succeeded | RpcRejected | RpcTimedOut | RpcCancelled | RpcFailed
  datatype Completion = Completion(
    status: RpcStatus, rejection: int, transportError: int, response: Option<Response>)

  datatype Slot = Slot(
    used: bool, internal: bool, admitted: bool, id: nat, timeout: Word, submittedAt: Word,
    request: Request, kind: Kind, state: OperationState, status: Status,
    domainStatus: int, linkStatus: int, payload: Payload)

  datatype Lease = Lease(state: LeaseState, status: Status, domainStatus: int, token: nat, granted: Word)

  datatype State = State(
    slots: seq<Slot>, active: nat, nextId: nat, lease: Lease,
    renewAt: Word, expireAt: Word, requestedTimeout: Word,
    running: bool, started: nat, released: nat)

  const NO_REQUEST: Request := Request(0, 0, 0, 0)
  const EMPTY_SLOT: Slot := Slot(
    false, false, false, 0, 0, 0, NO_REQUEST, NoKind, Unknown, NoData, 0, 0, NoPayload)
  const NO_LEASE: Lease := Lease(Released, NoLease, 0, 0, 0)
  const CANCELLED_LEASE: Lease := Lease(Released, Cancelled, 0, 0, 0)
  const INITIAL: State := State(
    [EMPTY_SLOT, EMPTY_SLOT, EMPTY_SLOT, EMPTY_SLOT, EMPTY_SLOT, EMPTY_SLOT, EMPTY_SLOT, EMPTY_SLOT],
    NO_SLOT, 1, NO_LEASE, 0, 0, 0, false, 0, 0)

  predicate Terminal(state: OperationState) {
    state == Completed || state == TimedOut || state == Dropped || state == LinkFailed || state == Rejected
  }

  predicate IsQueued(slot: Slot) { slot.used && slot.state == Queued }
  predicate IsPending(slot: Slot) { slot.used && slot.state == LinkPending }
  predicate IsLive(slot: Slot) { slot.used && !Terminal(slot.state) }
  predicate ValidTimeout(timeout: Word) { 0 < timeout < MAXIMUM_RELATIVE_TIMEOUT }

  // Slot searches

  function FirstFree(slots: seq<Slot>, from: nat, limit: nat): (r: nat)
    requires limit <= |slots| == CAPACITY
    ensures r == NO_SLOT || (from <= r < limit && !slots[r].used)
    ensures r == NO_SLOT <==> forall k :: from <= k < limit ==> slots[k].used
    decreases limit - from
  {
    if from >= limit then NO_SLOT
    else if !slots[from].used then from
    else FirstFree(slots, from + 1, limit)
  }

  /** The last slot is reserved for internal operations, which may spill into the others. */
  function AllocateSlot(slots: seq<Slot>, internal: bool): nat
    requires |slots| == CAPACITY
  {
    if internal && !slots[CAPACITY - 1].used then CAPACITY - 1
    else FirstFree(slots, 0, if internal then CAPACITY else PUBLIC_CAPACITY)
  }

  function FindSlot(slots: seq<Slot>, id: nat, from: nat): (r: nat)
    requires |slots| == CAPACITY
    ensures r == NO_SLOT || (from <= r < CAPACITY && slots[r].used && slots[r].id == id)
    ensures r == NO_SLOT <==> forall k :: from <= k < CAPACITY ==> !(slots[k].used && slots[k].id == id)
    decreases CAPACITY - from
  {
    if from >= CAPACITY then NO_SLOT
    else if slots[from].used && slots[from].id == id then from
    else FindSlot(slots, id, from + 1)
  }

  /** The queued slot with the smallest id among the first `n`; the scan starts from the
      largest 64-bit id, which it therefore never selects. */
  function OldestQueued(slots: seq<Slot>, n: nat): (r: nat)
    requires n <= |slots| == CAPACITY
    ensures r == NO_SLOT || (r < n && IsQueued(slots[r]) && slots[r].id < MAXIMUM_ID)
    ensures r != NO_SLOT ==> forall k :: 0 <= k < n && IsQueued(slots[k]) ==> slots[r].id <= slots[k].id
    ensures r == NO_SLOT <==> forall k :: 0 <= k < n && IsQueued(slots[k]) ==> slots[k].id >= MAXIMUM_ID
  {
    if n == 0 then NO_SLOT
    else
      var best := OldestQueued(slots, n - 1);
      var oldest := if best == NO_SLOT then MAXIMUM_ID else slots[best].id;
      if IsQueued(slots[n - 1]) && slots[n - 1].id < oldest then n - 1 else best
  }

  // Submission and consumption

  /** Only these requests pass while a firmware upgrade holds the device. */
  predicate AllowedDuringUpgrade(kind: Kind) {
    kind == GetDeviceInfo || kind == GetDeviceSettings || kind == EmergencyStop
  }

  function NextId(id: nat): nat { if id + 1 == ID_WRAP then 1 else id + 1 }

  function QueuedLease(lease: Lease, kind: Kind, request: Request, internal: bool): Lease {
    if kind == AcquireLease then
      lease.(state := if internal || request.leaseToken != 0 then RenewQueued else AcquireQueued, status := Ok)
    else if kind == ReleaseLease then lease.(state := ReleaseQueued, status := Ok)
    else lease
  }

  datatype Submission = Submission(state: State, status: Status, id: nat)

  function Submit(s: State, upgrading: bool, kind: Kind, timeout: Word, request: Request,
                  internal: bool, now: Word): Submission
    requires |s.slots| == CAPACITY
  {
    if upgrading && !AllowedDuringUpgrade(kind) then Submission(s, Busy, 0)
    else if !s.running then Submission(s, NotReady, 0)
    else
      var index := AllocateSlot(s.slots, internal);
      if index == NO_SLOT then Submission(s, QueueFull, 0)
      else
        var slot := EMPTY_SLOT.(used := true, internal := internal, id := s.nextId, timeout := timeout,
                                submittedAt := now, request := request, kind := kind,
                                state := Queued, status := Ok);
        Submission(s.(slots := s.slots[index := slot], nextId := NextId(s.nextId),
                      lease := QueuedLease(s.lease, kind, request, internal)),
                   Ok, s.nextId)
  }

  datatype TakeForm = TakeAny | TakeInfo | TakeSettings | TakeRegister

  predicate Accepts(form: TakeForm, kind: Kind) {
    match form
    case TakeAny => true
    case TakeInfo => kind == GetDeviceInfo
    case TakeSettings => kind == GetDeviceSettings || kind == SetDeviceSettings
    case TakeRegister => kind == MotorRegisterRead
  }

  /** What a take writes through its output reference. */
  function Written(form: TakeForm, slot: Slot): Option<Payload> {
    if slot.status == Ok && ((form == TakeInfo && slot.payload.Info?)
        || (form == TakeSettings && slot.payload.Settings?)
        || (form == TakeRegister && slot.payload.Register?))
    then Some(slot.payload) else None
  }

  datatype Taken = Taken(state: State, status: Status, written: Option<Payload>)

  function Take(s: State, form: TakeForm, id: nat): Taken
    requires |s.slots| == CAPACITY
  {
    var index := FindSlot(s.slots, id, 0);
    if index == NO_SLOT || !Accepts(form, s.slots[index].kind) then Taken(s, NoData, None)
    else if !Terminal(s.slots[index].state) then Taken(s, Busy, None)
    else Taken(s.(slots := s.slots[index := EMPTY_SLOT]), s.slots[index].status, Written(form, s.slots[index]))
  }

  // Completion

  predicate ValidSettings(settings: DeviceSettings) {
    && 100 <= settings.period <= 1_000_000
    && settings.finite
    && (forall k :: 0 <= k < |settings.folds| ==>
          var f := settings.folds[k];
          f.continuous >= 0.0 && f.peak >= f.continuous && f.capacity >= 0.0 && f.ramp >= 0.0)
    && (forall k :: 0 <= k < |settings.ranges| ==> settings.ranges[k].min < settings.ranges[k].max)
  }

  predicate ValidInfo(info: DeviceInfo) {
    && 0 < |info.serial| < NAME_CAPACITY
    && |info.board| < NAME_CAPACITY && |info.custom| < NAME_CAPACITY
  }

  /** Whether a successful RPC's response may be believed. The response's type is fixed by the
      kind in the source, so a response of another type counts as missing here. */
  predicate ResponseValid(kind: Kind, request: Request, response: Option<Response>) {
    response.Some? &&
    var r := response.value;
    match kind
    case AcquireLease =>
      r.GrantReply? && r.hasToken && r.token != 0 && r.hasTimeout && 0 < r.timeout < HALF
    case GetDeviceInfo => r.InfoReply? && r.hasInfo && ValidInfo(r.info)
    case GetDeviceSettings => r.SettingsReply? && r.hasSettings && ValidSettings(r.settings)
    case SetDeviceSettings => r.SettingsReply? && r.hasSettings && ValidSettings(r.settings)
    case MotorRegisterRead =>
      r.RegisterReply? && r.hasJoint && r.joint == request.joint
      && r.hasRegister && r.register == request.register && r.hasValue && r.finite
    case _ => true
  }

  function FinalState(status: RpcStatus): OperationState {
    match status
    case Succeeded => Completed
    case RpcRejected => Rejected
    case RpcTimedOut => TimedOut
    case RpcCancelled => Dropped
    case RpcFailed => LinkFailed
  }

  function FinalStatus(kind: Kind, request: Request, c: Completion): Status {
    match c.status
    case Succeeded =>
      if !ResponseValid(kind, request, c.response) then InternalError
      else if c.rejection == 0 then Ok else DomainError
    case RpcRejected => DomainError
    case RpcTimedOut => Timeout
    case RpcCancelled => Cancelled
    case RpcFailed => LinkError
  }

  function FinalPayload(kind: Kind, request: Request, c: Completion): Payload {
    if c.status != Succeeded || !ResponseValid(kind, request, c.response) then NoPayload
    else
      match kind
      case GetDeviceInfo => Info(c.response.value.info)
      case GetDeviceSettings => Settings(c.response.value.settings)
      case SetDeviceSettings => Settings(c.response.value.settings)
      case MotorRegisterRead => Register(c.response.value.value)
      case _ => NoPayload
  }

  function FinalSlot(slot: Slot, c: Completion): Slot {
    slot.(state := FinalState(c.status), status := FinalStatus(slot.kind, slot.request, c),
          domainStatus := c.rejection, linkStatus := c.transportError,
          payload := FinalPayload(slot.kind, slot.request, c))
  }

  /** The state with the lease fields a completed operation leaves behind. */
  function FinalLease(s: State, slot: Slot, c: Completion, now: Word): State {
    var status := FinalStatus(slot.kind, slot.request, c);
    if !s.running then s.(lease := CANCELLED_LEASE)
    else if slot.kind == AcquireLease then
      if status == Ok then
        var grant := c.response.value;
        s.(lease := Lease(Held, Ok, c.rejection, grant.token, grant.timeout),
           requestedTimeout := slot.request.leaseTimeout,
           renewAt := Reading(now + Max(1, grant.timeout / 2)),
           expireAt := Reading(now + grant.timeout))
      else
        s.(lease := Lease(if c.status == RpcTimedOut then Expired else Failed, status, c.rejection, 0, 0))
    else if slot.kind == ReleaseLease then
      if status == Ok then s.(lease := NO_LEASE) else s.(lease := Lease(Failed, status, c.rejection, 0, 0))
    else s
  }

  function Finalize(s: State, index: nat, c: Completion, now: Word): State
    requires index < |s.slots|
  {
    var slot := s.slots[index];
    FinalLease(s, slot, c, now).(
      slots := s.slots[index := if slot.internal then EMPTY_SLOT else FinalSlot(slot, c)],
      active := if s.active == index then NO_SLOT else s.active,
      released := if slot.admitted then s.released + 1 else s.released)
  }

  const EXPIRED: Completion := Completion(RpcTimedOut, 0, 0, None)
  const START_FAILED: Completion := Completion(RpcFailed, 0, 0, None)

  // One owner pass

  predicate HasExpired(slot: Slot, now: Word) {
    IsQueued(slot) && QueueRemaining(now, slot.submittedAt, slot.timeout) == 0
  }

  predicate LeaseOverdue(s: State, now: Word) {
    (s.lease.state == RenewQueued || s.lease.state == Renewing) && Until(now, s.expireAt) == 0
  }

  function ExpireLease(s: State, now: Word): State {
    if LeaseOverdue(s, now) then s.(lease := s.lease.(state := Expired, status := Timeout, token := 0, granted := 0))
    else s
  }

  function DropLease(s: State): State { s.(lease := NO_LEASE) }

  predicate RenewalDue(s: State, now: Word) {
    s.lease.state == Held && s.lease.token != 0 && Until(now, s.renewAt) == 0
  }

  function StartingLease(lease: Lease, slot: Slot): Lease {
    if slot.kind == AcquireLease then
      lease.(state := if slot.internal || slot.request.leaseToken != 0 then Renewing else Acquiring)
    else if slot.kind == ReleaseLease then lease.(state := Releasing)
    else lease
  }

  /** The operation the next start would pick, if the link is free. */
  function Candidate(s: State): nat
    requires |s.slots| == CAPACITY
  {
    if s.active != NO_SLOT then NO_SLOT else OldestQueued(s.slots, CAPACITY)
  }

  function Pick(s: State): State
    requires |s.slots| == CAPACITY
  {
    var index := Candidate(s);
    if index == NO_SLOT then s
    else s.(active := index, slots := s.slots[index := s.slots[index].(state := LinkPending)],
            lease := StartingLease(s.lease, s.slots[index]))
  }

  function Admit(s: State, index: nat): State
    requires index < |s.slots|
  {
    s.(slots := s.slots[index := s.slots[index].(admitted := true)], started := s.started + 1)
  }

  function Requeue(s: State, index: nat): State
    requires index < |s.slots|
  {
    s.(active := NO_SLOT, slots := s.slots[index := s.slots[index].(state := Queued)])
  }

  // Stop

  function StoppedSlot(slot: Slot): Slot {
    if !IsQueued(slot) then slot
    else if slot.internal then EMPTY_SLOT
    else slot.(state := Dropped, status := Cancelled)
  }

  function StopOnOwner(s: State): State {
    s.(running := false, slots := seq(|s.slots|, k requires 0 <= k < |s.slots| => StoppedSlot(s.slots[k])),
       lease := CANCELLED_LEASE)
  }

  // Readers

  datatype Token = NoToken(status: Status) | TokenIs(token: nat)

  predicate LeaseUsable(lease: Lease) {
    (lease.state == Held || lease.state == RenewQueued || lease.state == Renewing) && lease.token != 0
  }

  function CommandToken(s: State, upgrading: bool): Token {
    if upgrading then NoToken(Busy)
    else if !s.running then NoToken(NotReady)
    else if !LeaseUsable(s.lease) then NoToken(NoLease)
    else TokenIs(s.lease.token)
  }

  predicate LeaseBusy(state: LeaseState) {
    state == AcquireQueued || state == Acquiring || state == RenewQueued
    || state == Renewing || state == ReleaseQueued || state == Releasing
  }

  /** The nearest of the queued deadlines among the first `n` slots. */
  function QueueDeadline(slots: seq<Slot>, n: nat, now: Word): (r: Word)
    requires n <= |slots|
    ensures forall k :: 0 <= k < n && IsQueued(slots[k]) ==>
              r <= QueueRemaining(now, slots[k].submittedAt, slots[k].timeout)
    ensures r == NO_DEADLINE ||
            (exists k :: 0 <= k < n && IsQueued(slots[k]) &&
               r == QueueRemaining(now, slots[k].submittedAt, slots[k].timeout))
  {
    if n == 0 then NO_DEADLINE
    else
      var nearest := QueueDeadline(slots, n - 1, now);
      var slot := slots[n - 1];
      if IsQueued(slot) then Min(nearest, QueueRemaining(now, slot.submittedAt, slot.timeout)) else nearest
  }

  function Deadline(s: State, now: Word): Word {
    var nearest := QueueDeadline(s.slots, |s.slots|, now);
    if s.lease.state == Held then Min(nearest, Until(now, s.renewAt))
    else if s.lease.state == RenewQueued || s.lease.state == Renewing then Min(nearest, Until(now, s.expireAt))
    else nearest
  }
}
