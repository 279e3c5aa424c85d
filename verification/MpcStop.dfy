/** Starting and stopping an MPC session: callers that write targets or stop it, and its two
    workers, one atomic step at a time and in any order. */
module MpcStop {
  import opened Wrappers
  datatype Agent = Caller(id: nat) | Planner | Output

  /** What follows a stop request. */
  datatype Then = ThenJoin | ThenUnlock | ThenExit | ThenEnd

  /** Where an agent is: in write(), in a stop request, in stop(), or in a worker's loop. */
  datatype Pc =
    | Idle
    | WantLock | WriteCheck | Publish | StoreTime | TestStarted | SetStarted | StartPlan | StartOut | Unlock
    | Cas(reason: int, then_: Then) | StopPlan(then_: Then) | StopOut(then_: Then)
    | Join | Returned
    | Boot | Acquire | Loop | Work | Gate | Send | WaitCheck | WaitBlock | Exit | Ended

  /** Reason 0 is none. */
  datatype Shared = Shared(reason: int, started: bool, plan: nat, output: nat, mutex: Option<Agent>)
  /** Who set the started flag and who set the reason; how often each semaphore was released by the
      start and by the stop, and taken; commands sent after the reason was set; whether a stop() has
      returned. */
  datatype Releases = Releases(startPlan: nat, startOutput: nat, stopPlan: nat, stopOutput: nat)
  datatype History = History(starter: Option<Agent>, winner: Option<Agent>, releases: Releases,
                             takenPlan: nat, takenOutput: nat, lateSends: nat, returned: bool)
  datatype World = World(shared: Shared, pcs: map<Agent, Pc>, history: History)

  /** What the environment decides at a step: the ordinary way, a failure with its reason, nothing
      to send yet, or a wait that times out. */
  datatype Choice = Plain | Fail(reason: int) | Quiet | TimeOut

  const STOPPED := 1

  function Initial(): World {
    World(Shared(0, false, 0, 0, None), map[Planner := Acquire, Output := Boot],
          History(None, None, Releases(0, 0, 0, 0), 0, 0, 0, false))
  }

  function At(w: World, a: Agent): Pc { if a in w.pcs then w.pcs[a] else Idle }

  function Move(w: World, a: Agent, p: Pc): World { w.(pcs := w.pcs[a := p]) }

  function Follow(then_: Then): Pc {
    match then_
    case ThenJoin => Join
    case ThenUnlock => Unlock
    case ThenExit => Exit
    case ThenEnd => Ended
  }

  predicate StopRequested(w: World) { w.shared.reason != 0 }

  predicate WorkersEnded(w: World) { At(w, Planner).Ended? && At(w, Output).Ended? }

  function Tokens(w: World, a: Agent): nat { if a.Planner? then w.shared.plan else w.shared.output }

  predicate Requesting(p: Pc) { p.Cas? || p.StopPlan? || p.StopOut? }

  predicate InCritical(p: Pc) {
    || p.WriteCheck? || p.Publish? || p.StoreTime? || p.TestStarted? || p.SetStarted? || p.StartPlan? || p.StartOut?
    || p.Unlock? || (Requesting(p) && p.then_.ThenUnlock?)
  }

  predicate Working(p: Pc) {
    || p.Boot? || p.Acquire? || p.Loop? || p.Work? || p.Gate? || p.Send? || p.WaitCheck? || p.WaitBlock?
    || p.Exit? || p.Ended?
  }

  /** What a step can read. */
  datatype View = View(stopped: bool, started: bool, locked: bool, token: bool, ended: bool)

  function Look(w: World, a: Agent): View {
    View(StopRequested(w), w.shared.started, w.shared.mutex != None, Tokens(w, a) > 0, WorkersEnded(w))
  }

  /** What a step does to the shared state. */
  datatype Effect = Nothing | Lock | Release | SetFlag | FreePlan(stop: bool) | FreeOutput(stop: bool)
                  | SetReason(reason: int) | TakeToken | CountSend | MarkReturned

  datatype Step = Blocked | Go(effect: Effect, to: Pc)

  function Nonzero(reason: int): int { if reason == 0 then STOPPED else reason }

  function DecideWrite(v: View, p: Pc, c: Choice): Step {
    match p
    case WantLock => if v.locked then Blocked else Go(Lock, WriteCheck)
    case WriteCheck => Go(Nothing, if v.stopped then Unlock else Publish)
    case Publish => Go(Nothing, if c.Fail? then Cas(Nonzero(c.reason), ThenUnlock) else StoreTime)
    case StoreTime => Go(Nothing, TestStarted)
    case TestStarted => Go(Nothing, if v.started then Unlock else SetStarted)
    case SetStarted => Go(SetFlag, StartPlan)
    case StartPlan => Go(FreePlan(false), StartOut)
    case StartOut => Go(FreeOutput(false), Unlock)
    case Unlock => Go(Release, Idle)
    case _ => Blocked
  }

  function DecideStop(v: View, p: Pc): Step {
    match p
    case Cas(reason, then_) => if v.stopped then Go(Nothing, Follow(then_)) else Go(SetReason(reason), StopPlan(then_))
    case StopPlan(then_) => Go(FreePlan(true), StopOut(then_))
    case StopOut(then_) => Go(FreeOutput(true), Follow(then_))
    case Join => if v.ended then Go(MarkReturned, Returned) else Blocked
    case _ => Blocked
  }

  function DecideWork(v: View, p: Pc, c: Choice): Step {
    match p
    case Boot => Go(Nothing, if c.Fail? then Cas(Nonzero(c.reason), ThenExit) else Acquire)
    case Acquire => if v.token then Go(TakeToken, Loop) else Blocked
    case Loop => Go(Nothing, if v.stopped then Exit else Work)
    case Work => Go(Nothing, if c.Fail? then Cas(Nonzero(c.reason), ThenExit)
                             else if c.Quiet? then WaitCheck else Gate)
    case Gate => Go(Nothing, if v.stopped then Exit else Send)
    case Send => Go(CountSend, if c.Fail? then Cas(Nonzero(c.reason), ThenExit) else WaitCheck)
    case WaitCheck => Go(Nothing, if v.stopped then Exit else if c.TimeOut? then Loop else WaitBlock)
    case WaitBlock => if c.TimeOut? then Go(Nothing, WaitCheck)
                      else if v.token then Go(TakeToken, WaitCheck) else Blocked
    case Exit => Go(Nothing, if c.Fail? then Cas(Nonzero(c.reason), ThenEnd) else Ended)
    case _ => Blocked
  }

  /** A caller outside the session writes a target or stops the session. */
  function DecideIdle(c: Choice): Step {
    if c.Fail? then Go(Nothing, Cas(Nonzero(c.reason), ThenJoin)) else Go(Nothing, WantLock)
  }

  function Decide(v: View, p: Pc, c: Choice): Step {
    if Requesting(p) || p.Join? then DecideStop(v, p)
    else if Working(p) then DecideWork(v, p, c)
    else if p.Idle? || p.Returned? then DecideIdle(c)
    else DecideWrite(v, p, c)
  }

  function Do(w: World, a: Agent, e: Effect): World {
    var s, h := w.shared, w.history;
    var r := h.releases;
    match e
    case Nothing => w
    case Lock => w.(shared := s.(mutex := Some(a)))
    case Release => w.(shared := s.(mutex := None))
    case SetFlag => w.(shared := s.(started := true), history := h.(starter := Some(a)))
    case FreePlan(stop) =>
      w.(shared := s.(plan := s.plan + 1),
         history := h.(releases := if stop then r.(stopPlan := r.stopPlan + 1) else r.(startPlan := r.startPlan + 1)))
    case FreeOutput(stop) =>
      w.(shared := s.(output := s.output + 1),
         history := h.(releases := if stop then r.(stopOutput := r.stopOutput + 1)
                                   else r.(startOutput := r.startOutput + 1)))
    case SetReason(reason) => w.(shared := s.(reason := reason), history := h.(winner := Some(a)))
    case TakeToken =>
      if a.Planner? then
        if s.plan == 0 then w
        else w.(shared := s.(plan := s.plan - 1), history := h.(takenPlan := h.takenPlan + 1))
      else if s.output == 0 then w
      else w.(shared := s.(output := s.output - 1), history := h.(takenOutput := h.takenOutput + 1))
    case CountSend => if a.Output? && StopRequested(w) then w.(history := h.(lateSends := h.lateSends + 1)) else w
    case MarkReturned => w.(history := h.(returned := true))
  }

  /** One step of one agent; None when it is blocked. */
  function Next(w: World, a: Agent, c: Choice): Option<World> {
    match Decide(Look(w, a), At(w, a), c)
    case Blocked => None
    case Go(e, to) => Some(Move(Do(w, a, e), a, to))
  }

  // Invariants

  /** What an agent's place says about the shared state. */
  predicate AgentOk(w: World, a: Agent) {
    var p := At(w, a);
    && (InCritical(p) <==> w.shared.mutex == Some(a))
    && (p.SetStarted? ==> !w.shared.started)
    && (p.StartPlan? || p.StartOut? ==> w.history.starter == Some(a))
    && (p.StopPlan? || p.StopOut? ==> w.history.winner == Some(a))
    && (p.Cas? ==> p.reason != 0)
    && (a.Caller? <==> CallerPc(p))
    && (p.Join? || p.Returned? ==> StopRequested(w))
  }

  predicate StartOk(w: World) {
    && (w.shared.started <==> w.history.starter.Some?)
    && match w.history.starter
       case None => w.history.releases.startPlan == 0 && w.history.releases.startOutput == 0
       case Some(a) =>
         && w.history.releases.startPlan == (if At(w, a).StartPlan? then 0 else 1)
         && w.history.releases.startOutput == (if At(w, a).StartPlan? || At(w, a).StartOut? then 0 else 1)
  }

  predicate StopOk(w: World) {
    && (StopRequested(w) <==> w.history.winner.Some?)
    && match w.history.winner
       case None => w.history.releases.stopPlan == 0 && w.history.releases.stopOutput == 0
       case Some(a) =>
         && w.history.releases.stopPlan == (if At(w, a).StopPlan? then 0 else 1)
         && w.history.releases.stopOutput == (if At(w, a).StopPlan? || At(w, a).StopOut? then 0 else 1)
  }

  /** Every token was released by the start or the stop, and only its own worker takes it. */
  predicate TokensOk(w: World) {
    && w.shared.plan + w.history.takenPlan == w.history.releases.startPlan + w.history.releases.stopPlan
    && w.shared.output + w.history.takenOutput == w.history.releases.startOutput + w.history.releases.stopOutput
    && (At(w, Planner).Boot? || At(w, Planner).Acquire? ==> w.history.takenPlan == 0)
    && (At(w, Output).Boot? || At(w, Output).Acquire? ==> w.history.takenOutput == 0)
  }

  predicate SendsOk(w: World) {
    && w.history.lateSends <= (if StopRequested(w) && !At(w, Output).Send? then 1 else 0)
    && (w.history.returned ==> WorkersEnded(w))
  }

  ghost predicate Inv(w: World) {
    StartOk(w) && StopOk(w) && TokensOk(w) && SendsOk(w) && !At(w, Planner).Boot?
    && forall a: Agent :: AgentOk(w, a)
  }

  lemma InitialAgent(a: Agent)
    ensures AgentOk(Initial(), a)
  {
    var w := Initial();
    match a
    case Planner => assert At(w, Planner) == Acquire;
    case Output => assert At(w, Output) == Boot;
    case Caller(_) => assert At(w, a) == Idle;
  }

  lemma InitialWorkers()
    ensures At(Initial(), Planner) == Acquire && At(Initial(), Output) == Boot
    ensures Initial().shared == Shared(0, false, 0, 0, None)
    ensures Initial().history == History(None, None, Releases(0, 0, 0, 0), 0, 0, 0, false)
  {
  }

  lemma InitialStartOk()
    ensures StartOk(Initial())
  {
    hide At, Initial;
    InitialWorkers();
  }

  lemma InitialStopOk()
    ensures StopOk(Initial())
  {
    hide At, Initial;
    InitialWorkers();
  }

  lemma InitialTokensOk()
    ensures TokensOk(Initial())
  {
    hide At, Initial;
    InitialWorkers();
  }

  lemma InitialSendsOk()
    ensures SendsOk(Initial())
  {
    hide At, Initial;
    InitialWorkers();
  }

  lemma InitialInv()
    ensures Inv(Initial())
  {
    hide AgentOk, At, StartOk, StopOk, TokensOk, SendsOk, Initial;
    InitialWorkers();
    InitialStartOk();
    InitialStopOk();
    InitialTokensOk();
    InitialSendsOk();
    forall a: Agent ensures AgentOk(Initial(), a) { InitialAgent(a); }
  }

  /** Another agent's step leaves an agent's own facts alone. */
  predicate Undisturbed(w: World, v: World, a: Agent, b: Agent) {
    && At(v, b) == At(w, b)
    && (w.shared.mutex == Some(b) <==> v.shared.mutex == Some(b))
    && (At(w, b).SetStarted? ==> v.shared.started == w.shared.started)
    && (w.history.starter == Some(b) ==> v.history.starter == Some(b))
    && (w.history.winner == Some(b) ==> v.history.winner == Some(b))
    && (StopRequested(w) ==> StopRequested(v))
  }

  lemma OthersStayOk(w: World, v: World, a: Agent)
    requires forall b: Agent :: AgentOk(w, b)
    requires AgentOk(v, a)
    requires forall b: Agent :: b != a ==> Undisturbed(w, v, a, b)
    ensures forall b: Agent :: AgentOk(v, b)
  {
    forall b: Agent ensures AgentOk(v, b) {
      if b != a {
        assert AgentOk(w, b) && Undisturbed(w, v, a, b);
      }
    }
  }

  // What a step can be

  predicate IsWriting(p: Pc) { !Requesting(p) && !p.Join? && !Working(p) && !p.Idle? && !p.Returned? }

  /** Setting the flag and the two releases of a start come once each, in order. */
  predicate StartFacts(v: View, p: Pc, g: Step)
    requires g.Go?
  {
    && (p.SetStarted? <==> g.effect.SetFlag?) && (p.SetStarted? ==> g.to.StartPlan?)
    && (p.StartPlan? <==> g.effect == FreePlan(false)) && (p.StartPlan? ==> g.to.StartOut?)
    && (p.StartOut? <==> g.effect == FreeOutput(false)) && (p.StartOut? ==> g.to.Unlock?)
    && (g.to.StartPlan? ==> p.SetStarted?) && (g.to.StartOut? ==> p.StartPlan?)
    && (g.to.SetStarted? ==> p.TestStarted? && !v.started)
  }

  /** Setting the reason and the two releases of a stop come once each, in order. */
  predicate StopFacts(v: View, p: Pc, g: Step)
    requires g.Go?
  {
    && (g.effect.SetReason? <==> p.Cas? && !v.stopped)
    && (g.effect.SetReason? ==> g.effect.reason == p.reason && g.to == StopPlan(p.then_))
    && (p.StopPlan? <==> g.effect == FreePlan(true)) && (p.StopPlan? ==> g.to == StopOut(p.then_))
    && (p.StopOut? <==> g.effect == FreeOutput(true)) && (p.StopOut? ==> g.to == Follow(p.then_))
    && (g.to.StopPlan? ==> p.Cas? && !v.stopped) && (g.to.StopOut? ==> p.StopPlan?)
    && (g.to.Cas? ==> g.to.reason != 0) && (g.to.Join? ==> (p.Cas? && v.stopped) || p.StopOut?)
    && (g.to.Returned? ==> p.Join?)
  }

  /** The critical section is entered with the lock and left without it. */
  predicate LockFacts(v: View, p: Pc, g: Step)
    requires g.Go?
  {
    && (g.effect.Lock? <==> p.WantLock?) && (g.effect.Lock? ==> !v.locked && InCritical(g.to))
    && (g.effect.Release? <==> p.Unlock?) && (g.effect.Release? ==> !InCritical(g.to))
    && (!g.effect.Lock? && !g.effect.Release? ==> (InCritical(p) <==> InCritical(g.to)))
  }

  lemma WriteStarts(v: View, p: Pc, c: Choice)
    requires IsWriting(p) && DecideWrite(v, p, c).Go?
    ensures StartFacts(v, p, DecideWrite(v, p, c))
  {
  }

  lemma RequestStarts(v: View, p: Pc)
    requires (Requesting(p) || p.Join?) && DecideStop(v, p).Go?
    ensures StartFacts(v, p, DecideStop(v, p))
  {
  }

  lemma WorkStarts(v: View, p: Pc, c: Choice)
    requires Working(p) && DecideWork(v, p, c).Go?
    ensures StartFacts(v, p, DecideWork(v, p, c))
  {
  }

  lemma IdleStarts(v: View, p: Pc, c: Choice)
    requires p.Idle? || p.Returned?
    ensures StartFacts(v, p, DecideIdle(c))
  {
  }

  lemma WriteStops(v: View, p: Pc, c: Choice)
    requires IsWriting(p) && DecideWrite(v, p, c).Go?
    ensures StopFacts(v, p, DecideWrite(v, p, c))
  {
  }

  lemma RequestStops(v: View, p: Pc)
    requires (Requesting(p) || p.Join?) && DecideStop(v, p).Go?
    ensures StopFacts(v, p, DecideStop(v, p))
  {
  }

  lemma WorkStops(v: View, p: Pc, c: Choice)
    requires Working(p) && DecideWork(v, p, c).Go?
    ensures StopFacts(v, p, DecideWork(v, p, c))
  {
  }

  lemma IdleStops(v: View, p: Pc, c: Choice)
    requires p.Idle? || p.Returned?
    ensures StopFacts(v, p, DecideIdle(c))
  {
  }

  lemma WriteLocks(v: View, p: Pc, c: Choice)
    requires IsWriting(p) && DecideWrite(v, p, c).Go?
    ensures LockFacts(v, p, DecideWrite(v, p, c))
  {
  }

  lemma RequestLocks(v: View, p: Pc)
    requires (Requesting(p) || p.Join?) && DecideStop(v, p).Go?
    ensures LockFacts(v, p, DecideStop(v, p))
  {
  }

  lemma WorkLocks(v: View, p: Pc, c: Choice)
    requires Working(p) && DecideWork(v, p, c).Go?
    ensures LockFacts(v, p, DecideWork(v, p, c))
  {
  }

  lemma IdleLocks(v: View, p: Pc, c: Choice)
    requires p.Idle? || p.Returned?
    ensures LockFacts(v, p, DecideIdle(c))
  {
  }

  lemma StartSteps(v: View, p: Pc, c: Choice)
    requires Decide(v, p, c).Go?
    ensures StartFacts(v, p, Decide(v, p, c))
  {
    hide StartFacts, DecideWrite, DecideStop, DecideWork, DecideIdle;
    if Requesting(p) || p.Join? {
      RequestStarts(v, p);
    } else if Working(p) {
      WorkStarts(v, p, c);
    } else if p.Idle? || p.Returned? {
      IdleStarts(v, p, c);
    } else {
      WriteStarts(v, p, c);
    }
  }

  lemma StopSteps(v: View, p: Pc, c: Choice)
    requires Decide(v, p, c).Go?
    ensures StopFacts(v, p, Decide(v, p, c))
  {
    hide StopFacts, DecideWrite, DecideStop, DecideWork, DecideIdle;
    if Requesting(p) || p.Join? {
      RequestStops(v, p);
    } else if Working(p) {
      WorkStops(v, p, c);
    } else if p.Idle? || p.Returned? {
      IdleStops(v, p, c);
    } else {
      WriteStops(v, p, c);
    }
  }

  lemma LockSteps(v: View, p: Pc, c: Choice)
    requires Decide(v, p, c).Go?
    ensures LockFacts(v, p, Decide(v, p, c))
  {
    hide LockFacts, DecideWrite, DecideStop, DecideWork, DecideIdle;
    if Requesting(p) || p.Join? {
      RequestLocks(v, p);
    } else if Working(p) {
      WorkLocks(v, p, c);
    } else if p.Idle? || p.Returned? {
      IdleLocks(v, p, c);
    } else {
      WriteLocks(v, p, c);
    }
  }

  predicate CallerPc(p: Pc) {
    p.Idle? || p.WantLock? || InCritical(p) || p.Join? || p.Returned? || (Requesting(p) && p.then_.ThenJoin?)
  }

  lemma RequestKind(p: Pc)
    requires Requesting(p)
    ensures CallerPc(p) <==> p.then_.ThenJoin? || p.then_.ThenUnlock?
    ensures CallerPc(p) <==> CallerPc(Follow(p.then_))
  {
  }

  lemma WorkKind(v: View, p: Pc, c: Choice)
    requires Working(p) && DecideWork(v, p, c).Go?
    ensures !CallerPc(p) && !CallerPc(DecideWork(v, p, c).to) && !DecideWork(v, p, c).to.Boot?
  {
  }

  lemma WriteKind(v: View, p: Pc, c: Choice)
    requires DecideWrite(v, p, c).Go?
    ensures CallerPc(p) && CallerPc(DecideWrite(v, p, c).to) && !DecideWrite(v, p, c).to.Boot?
  {
  }

  lemma StopKind(v: View, p: Pc)
    requires DecideStop(v, p).Go?
    ensures CallerPc(p) <==> CallerPc(DecideStop(v, p).to)
    ensures !DecideStop(v, p).to.Boot?
  {
    if Requesting(p) { RequestKind(p); }
  }

  lemma KindSteps(v: View, p: Pc, c: Choice)
    requires Decide(v, p, c).Go?
    ensures CallerPc(p) <==> CallerPc(Decide(v, p, c).to)
    ensures !Decide(v, p, c).to.Boot?
  {
    hide DecideWork, DecideStop, DecideWrite;
    if Requesting(p) || p.Join? {
      StopKind(v, p);
    } else if Working(p) {
      WorkKind(v, p, c);
    } else if !p.Idle? && !p.Returned? {
      WriteKind(v, p, c);
    }
  }

  lemma TokenSteps(v: View, p: Pc, c: Choice)
    requires Decide(v, p, c).Go?
    ensures var g := Decide(v, p, c);
            && (g.effect.TakeToken? ==> v.token && (p.Acquire? || p.WaitBlock?) && (g.to.Loop? || g.to.WaitCheck?))
            && (g.to.Acquire? ==> p.Boot?)
            && (p.Acquire? ==> !g.to.Acquire?)
  {
  }

  lemma SendSteps(v: View, p: Pc, c: Choice)
    requires Decide(v, p, c).Go?
    ensures var g := Decide(v, p, c);
            && (g.effect.CountSend? <==> p.Send?) && !(p.Send? && g.to.Send?)
            && (g.to.Send? ==> p.Gate? && !v.stopped) && !p.Ended?
            && (g.effect.MarkReturned? ==> v.ended)
  {
  }

  // What an effect changes

  lemma Moved(w: World, a: Agent, to: Pc, b: Agent)
    ensures At(Move(w, a, to), b) == if b == a then to else At(w, b)
    ensures Move(w, a, to).shared == w.shared && Move(w, a, to).history == w.history
  {
  }

  function Count(b: bool): nat { if b then 1 else 0 }

  lemma StartEffect(w: World, a: Agent, e: Effect)
    ensures var v := Do(w, a, e); var r, q := w.history.releases, v.history.releases;
            && v.pcs == w.pcs
            && (v.shared.started <==> w.shared.started || e.SetFlag?)
            && v.history.starter == (if e.SetFlag? then Some(a) else w.history.starter)
            && q.startPlan == r.startPlan + Count(e == FreePlan(false))
            && q.startOutput == r.startOutput + Count(e == FreeOutput(false))
  {
  }

  lemma StopEffect(w: World, a: Agent, e: Effect)
    ensures var v := Do(w, a, e); var r, q := w.history.releases, v.history.releases;
            && v.pcs == w.pcs
            && v.shared.reason == (if e.SetReason? then e.reason else w.shared.reason)
            && v.history.winner == (if e.SetReason? then Some(a) else w.history.winner)
            && q.stopPlan == r.stopPlan + Count(e == FreePlan(true))
            && q.stopOutput == r.stopOutput + Count(e == FreeOutput(true))
  {
  }

  lemma OtherEffect(w: World, a: Agent, e: Effect)
    ensures var v := Do(w, a, e); var h, g := w.history, v.history;
            && v.pcs == w.pcs
            && v.shared.mutex == (if e.Lock? then Some(a) else if e.Release? then None else w.shared.mutex)
            && g.lateSends == h.lateSends + Count(e.CountSend? && a.Output? && StopRequested(w))
            && g.returned == (h.returned || e.MarkReturned?)
  {
  }

  lemma TokenEffect(w: World, a: Agent, e: Effect)
    requires e.TakeToken? ==> Tokens(w, a) > 0
    ensures var v := Do(w, a, e); var h, g := w.history, v.history;
            && v.pcs == w.pcs
            && v.shared.plan + g.takenPlan == w.shared.plan + h.takenPlan + Count(e.FreePlan?)
            && v.shared.output + g.takenOutput == w.shared.output + h.takenOutput + Count(e.FreeOutput?)
            && g.takenPlan == h.takenPlan + Count(e.TakeToken? && a.Planner?)
            && g.takenOutput == h.takenOutput + Count(e.TakeToken? && !a.Planner?)
            && g.releases.startPlan + g.releases.stopPlan
               == h.releases.startPlan + h.releases.stopPlan + Count(e.FreePlan?)
            && g.releases.startOutput + g.releases.stopOutput
               == h.releases.startOutput + h.releases.stopOutput + Count(e.FreeOutput?)
  {
  }

  // What a step keeps

  lemma OwnOk(w: World, a: Agent, c: Choice)
    requires AgentOk(w, a) && StopOk(w) && Next(w, a, c).Some?
    ensures AgentOk(Next(w, a, c).value, a)
  {
    var v, p := Look(w, a), At(w, a);
    var g := Decide(v, p, c);
    StartSteps(v, p, c);
    StopSteps(v, p, c);
    LockSteps(v, p, c);
    KindSteps(v, p, c);
    StartEffect(w, a, g.effect);
    StopEffect(w, a, g.effect);
    OtherEffect(w, a, g.effect);
    Moved(Do(w, a, g.effect), a, g.to, a);
    hide Decide, InCritical, CallerPc, Requesting, Do, Move, At;
  }

  lemma NextUndisturbed(w: World, a: Agent, c: Choice, b: Agent)
    requires AgentOk(w, a) && AgentOk(w, b) && StartOk(w) && StopOk(w) && Next(w, a, c).Some? && a != b
    ensures Undisturbed(w, Next(w, a, c).value, a, b)
  {
    var v, p := Look(w, a), At(w, a);
    var g := Decide(v, p, c);
    StartSteps(v, p, c);
    StopSteps(v, p, c);
    LockSteps(v, p, c);
    StartEffect(w, a, g.effect);
    StopEffect(w, a, g.effect);
    OtherEffect(w, a, g.effect);
    Moved(Do(w, a, g.effect), a, g.to, b);
    assert p.SetStarted? || p.Unlock? ==> InCritical(p);
    assert At(w, b).SetStarted? ==> InCritical(At(w, b));
    hide Decide, InCritical, CallerPc, Requesting, Do, Move, At;
    assert Do(w, a, g.effect).pcs == w.pcs;
    SameAt(w, Do(w, a, g.effect), b);
  }

  lemma SameAt(w: World, v: World, b: Agent)
    requires w.pcs == v.pcs
    ensures At(w, b) == At(v, b)
  {
  }

  lemma NextStartOk(w: World, a: Agent, c: Choice)
    requires AgentOk(w, a) && StartOk(w) && Next(w, a, c).Some?
    ensures StartOk(Next(w, a, c).value)
  {
    var g := Decide(Look(w, a), At(w, a), c);
    StartSteps(Look(w, a), At(w, a), c);
    StartEffect(w, a, g.effect);
    var u := Do(w, a, g.effect);
    Moved(u, a, g.to, a);
    if w.history.starter.Some? {
      SameAt(w, u, w.history.starter.value);
      Moved(u, a, g.to, w.history.starter.value);
    }
    assert At(w, a).SetStarted? ==> InCritical(At(w, a));
    hide Decide, InCritical, CallerPc, Requesting, Do, Move, At;
  }

  lemma NextStopOk(w: World, a: Agent, c: Choice)
    requires AgentOk(w, a) && StopOk(w) && Next(w, a, c).Some?
    ensures StopOk(Next(w, a, c).value)
  {
    var g := Decide(Look(w, a), At(w, a), c);
    StopSteps(Look(w, a), At(w, a), c);
    StopEffect(w, a, g.effect);
    var u := Do(w, a, g.effect);
    Moved(u, a, g.to, a);
    if w.history.winner.Some? {
      SameAt(w, u, w.history.winner.value);
      Moved(u, a, g.to, w.history.winner.value);
    }
    hide Decide, InCritical, CallerPc, Requesting, Do, Move, At;
  }

  lemma WorkersAt(w: World, a: Agent, to: Pc, u: World)
    requires u.pcs == w.pcs
    ensures At(Move(u, a, to), Planner) == if a == Planner then to else At(w, Planner)
    ensures At(Move(u, a, to), Output) == if a == Output then to else At(w, Output)
  {
  }

  lemma NextTokensOk(w: World, a: Agent, c: Choice)
    requires AgentOk(w, a) && TokensOk(w) && Next(w, a, c).Some?
    ensures TokensOk(Next(w, a, c).value)
  {
    var g := Decide(Look(w, a), At(w, a), c);
    TokenSteps(Look(w, a), At(w, a), c);
    KindSteps(Look(w, a), At(w, a), c);
    TokenEffect(w, a, g.effect);
    WorkersAt(w, a, g.to, Do(w, a, g.effect));
    Moved(Do(w, a, g.effect), a, g.to, a);
    assert At(w, a).Acquire? || At(w, a).WaitBlock? || At(w, a).Boot? ==> !a.Caller?;
    hide Decide, InCritical, Requesting, CallerPc, Do, Move, At;
  }

  lemma NextSendsOk(w: World, a: Agent, c: Choice)
    requires AgentOk(w, a) && SendsOk(w) && Next(w, a, c).Some?
    ensures SendsOk(Next(w, a, c).value)
  {
    var g := Decide(Look(w, a), At(w, a), c);
    SendSteps(Look(w, a), At(w, a), c);
    StopSteps(Look(w, a), At(w, a), c);
    OtherEffect(w, a, g.effect);
    StopEffect(w, a, g.effect);
    WorkersAt(w, a, g.to, Do(w, a, g.effect));
    Moved(Do(w, a, g.effect), a, g.to, a);
    hide Decide, InCritical, CallerPc, Requesting, Do, Move, At;
  }

  /** Every step of every agent keeps the invariant. */
  lemma NextInv(w: World, a: Agent, c: Choice)
    requires Inv(w) && Next(w, a, c).Some?
    ensures Inv(Next(w, a, c).value)
  {
    hide AgentOk, StartOk, StopOk, TokensOk, SendsOk, Undisturbed, Decide, Do;
    assert AgentOk(w, a);
    NextStartOk(w, a, c);
    NextStopOk(w, a, c);
    NextTokensOk(w, a, c);
    NextSendsOk(w, a, c);
    OwnOk(w, a, c);
    forall b: Agent | b != a ensures Undisturbed(w, Next(w, a, c).value, a, b) {
      NextUndisturbed(w, a, c, b);
    }
    OthersStayOk(w, Next(w, a, c).value, a);
    NeverReboots(w, a, c);
  }

  lemma NeverReboots(w: World, a: Agent, c: Choice)
    requires !At(w, Planner).Boot? && Next(w, a, c).Some?
    ensures !At(Next(w, a, c).value, Planner).Boot?
  {
    var g := Decide(Look(w, a), At(w, a), c);
    KindSteps(Look(w, a), At(w, a), c);
    OtherEffect(w, a, g.effect);
    WorkersAt(w, a, g.to, Do(w, a, g.effect));
    hide Decide, Do, At, Move;
  }

  // Runs

  datatype Event = Event(agent: Agent, choice: Choice)

  /** An event for a blocked agent changes nothing. */
  function Apply(w: World, e: Event): World {
    var n := Next(w, e.agent, e.choice);
    if n.Some? then n.value else w
  }

  function After(w: World, events: seq<Event>): World
    decreases |events|
  {
    if events == [] then w else After(Apply(w, events[0]), events[1..])
  }

  lemma {:induction false} AfterInv(w: World, events: seq<Event>)
    requires Inv(w)
    ensures Inv(After(w, events))
    decreases |events|
  {
    if events != [] {
      hide Inv;
      if Next(w, events[0].agent, events[0].choice).Some? { NextInv(w, events[0].agent, events[0].choice); }
      AfterInv(Apply(w, events[0]), events[1..]);
    }
  }

  // Theorems over every interleaving

  /** A semaphore of capacity two is enough: the first target and the first stop release one token
      each, whoever races to be first. */
  lemma SemaphoresNeverOverflow(events: seq<Event>)
    ensures After(Initial(), events).shared.plan <= 2 && After(Initial(), events).shared.output <= 2
  {
    hide *;
    InitialInv();
    AfterInv(Initial(), events);
    Bounds(After(Initial(), events));
  }

  lemma Bounds(w: World)
    requires Inv(w)
    ensures w.shared.plan <= 2 && w.shared.output <= 2 && w.history.lateSends <= 1
  {
    hide AgentOk, At;
  }

  /** The first reason given for a stop is the one that stays. */
  lemma {:induction false} FirstReasonStands(w: World, events: seq<Event>)
    requires Inv(w) && StopRequested(w)
    ensures After(w, events).shared.reason == w.shared.reason
    decreases |events|
  {
    if events != [] {
      var v, a, c := Apply(w, events[0]), events[0].agent, events[0].choice;
      if Next(w, a, c).Some? {
        NextInv(w, a, c);
        StopSteps(Look(w, a), At(w, a), c);
        StopEffect(w, a, Decide(Look(w, a), At(w, a), c).effect);
        hide Inv, Decide, Do, At;
      }
      FirstReasonStands(v, events[1..]);
    }
  }

  /** At most one command goes out after a stop has been requested. */
  lemma AtMostOneLateSend(events: seq<Event>)
    ensures After(Initial(), events).history.lateSends <= 1
  {
    hide *;
    InitialInv();
    AfterInv(Initial(), events);
    Bounds(After(Initial(), events));
  }

  lemma EndedIsFinal(w: World, a: Agent, c: Choice)
    requires Inv(w) && WorkersEnded(w) && Next(w, a, c).Some?
    ensures WorkersEnded(Next(w, a, c).value)
    ensures Next(w, a, c).value.history.lateSends == w.history.lateSends
  {
    var g := Decide(Look(w, a), At(w, a), c);
    assert AgentOk(w, a);
    SendSteps(Look(w, a), At(w, a), c);
    OtherEffect(w, a, g.effect);
    StopEffect(w, a, g.effect);
    WorkersAt(w, a, g.to, Do(w, a, g.effect));
    Moved(Do(w, a, g.effect), a, g.to, a);
    hide Decide, Inv, Do, At, Move, AgentOk;
  }

  /** Once stop() has returned no command goes out any more: the workers have ended for good. */
  lemma NothingAfterReturn(w: World, events: seq<Event>)
    requires Inv(w) && w.history.returned
    ensures WorkersEnded(After(w, events)) && After(w, events).history.lateSends == w.history.lateSends
  {
    WorkersStayEnded(w, events);
  }

  lemma {:induction false} WorkersStayEnded(w: World, events: seq<Event>)
    requires Inv(w) && WorkersEnded(w)
    ensures WorkersEnded(After(w, events)) && After(w, events).history.lateSends == w.history.lateSends
    decreases |events|
  {
    if events != [] {
      if Next(w, events[0].agent, events[0].choice).Some? {
        NextInv(w, events[0].agent, events[0].choice);
        EndedIsFinal(w, events[0].agent, events[0].choice);
      }
      hide Inv, WorkersEnded;
      WorkersStayEnded(Apply(w, events[0]), events[1..]);
    }
  }

  // A stop takes effect

  function Rank(p: Pc): nat {
    match p
    case Boot => 13 case Acquire => 12 case Loop => 11 case Work => 10 case Gate => 9 case Send => 8
    case WaitBlock => 7 case WaitCheck => 6
    case StopPlan(then_) => if then_.ThenExit? then 5 else 2
    case StopOut(then_) => if then_.ThenExit? then 4 else 1
    case Cas(_, then_) => if then_.ThenExit? then 4 else 1
    case Exit => 3
    case _ => 0
  }

  predicate Releasing(w: World, a: Agent) {
    a.Caller? && w.history.winner == Some(a) && (At(w, a).StopPlan? || At(w, a).StopOut?)
  }

  /** The steps that carry a stop out: the workers', and the two releases of whoever requested it. */
  predicate Useful(w: World, a: Agent) { !a.Caller? || Releasing(w, a) }

  function CallerRank(w: World): nat {
    if w.history.winner.Some? && Releasing(w, w.history.winner.value) then Rank(At(w, w.history.winner.value)) else 0
  }

  /** What is left to do before both workers have ended. */
  function Remaining(w: World): nat { Rank(At(w, Planner)) + Rank(At(w, Output)) + CallerRank(w) }

  lemma RankFalls(v: View, p: Pc, c: Choice)
    requires v.stopped && Decide(v, p, c).Go? && !CallerPc(p)
    ensures Rank(Decide(v, p, c).to) < Rank(p)
  {
    match p
    case Cas(_, then_) => assert then_.ThenExit? || then_.ThenEnd?;
    case StopPlan(then_) => assert then_.ThenExit? || then_.ThenEnd?;
    case StopOut(then_) => assert then_.ThenExit? || then_.ThenEnd?;
    case _ =>
  }

  lemma ReleaseRankFalls(v: View, p: Pc, c: Choice)
    requires CallerPc(p) && (p.StopPlan? || p.StopOut?)
    ensures var g := Decide(v, p, c); g.Go? && Rank(g.to) < Rank(p) && (p.StopOut? ==> !g.to.StopPlan? && !g.to.StopOut?)
  {
  }

  lemma CallerRankAfter(w: World, a: Agent, c: Choice)
    requires Inv(w) && StopRequested(w) && Next(w, a, c).Some?
    ensures CallerRank(Next(w, a, c).value) <= CallerRank(w)
    ensures Releasing(w, a) ==> CallerRank(Next(w, a, c).value) < CallerRank(w)
  {
    var v, p := Look(w, a), At(w, a);
    var g := Decide(v, p, c);
    var b := w.history.winner.value;
    assert AgentOk(w, a) && AgentOk(w, b);
    StopSteps(v, p, c);
    StopEffect(w, a, g.effect);
    SameAt(w, Do(w, a, g.effect), b);
    Moved(Do(w, a, g.effect), a, g.to, b);
    if Releasing(w, a) { ReleaseRankFalls(v, p, c); }
    hide Decide, Inv, Do, At, Move, AgentOk, Rank, Follow;
  }

  /** Every useful step brings the end nearer, and no other step moves it away. */
  lemma StopProgresses(w: World, a: Agent, c: Choice)
    requires Inv(w) && StopRequested(w) && Next(w, a, c).Some?
    ensures Remaining(Next(w, a, c).value) <= Remaining(w)
    ensures Useful(w, a) ==> Remaining(Next(w, a, c).value) < Remaining(w)
  {
    var g := Decide(Look(w, a), At(w, a), c);
    assert AgentOk(w, a);
    CallerRankAfter(w, a, c);
    if !a.Caller? { RankFalls(Look(w, a), At(w, a), c); }
    OtherEffect(w, a, g.effect);
    WorkersAt(w, a, g.to, Do(w, a, g.effect));
    hide Decide, Inv, Do, At, Move, AgentOk, Rank, CallerRank, Releasing;
  }

  /** While a worker has not ended, some agent has a useful step it can take: nobody waits for a
      token that never comes. */
  lemma StopNeverStalls(w: World)
    requires Inv(w) && StopRequested(w) && !WorkersEnded(w)
    ensures exists a: Agent :: Useful(w, a) && Next(w, a, TimeOut).Some?
  {
    var b := w.history.winner.value;
    assert AgentOk(w, b) && AgentOk(w, Planner) && AgentOk(w, Output);
    if At(w, b).StopPlan? || At(w, b).StopOut? {
      assert Useful(w, b) && Next(w, b, TimeOut).Some?;
    } else if !At(w, Planner).Ended? {
      WorkerCanStep(w, Planner);
      assert Useful(w, Planner) && Next(w, Planner, TimeOut).Some?;
    } else {
      WorkerCanStep(w, Output);
      assert Useful(w, Output) && Next(w, Output, TimeOut).Some?;
    }
  }

  /** Once the stop's tokens are out, a worker that waits for its first token has one. */
  lemma WorkerCanStep(w: World, a: Agent)
    requires StopOk(w) && TokensOk(w) && AgentOk(w, a) && StopRequested(w) && !a.Caller? && !At(w, a).Ended?
    requires var p := At(w, w.history.winner.value); !p.StopPlan? && !p.StopOut?
    ensures Next(w, a, TimeOut).Some?
  {
    var p := At(w, a);
    assert w.history.releases.stopPlan == 1 && w.history.releases.stopOutput == 1;
    assert p.Acquire? ==> Tokens(w, a) > 0;
    assert !CallerPc(p);
    CanStep(Look(w, a), p);
    hide Decide, At, Do, Move, CallerPc;
  }

  lemma CanStep(v: View, p: Pc)
    requires !CallerPc(p) && !p.Ended? && (p.Acquire? ==> v.token)
    ensures Decide(v, p, TimeOut).Go?
  {
  }

  function UsefulSteps(w: World, events: seq<Event>): nat
    decreases |events|
  {
    if events == [] then 0
    else
      var e := events[0];
      (if Useful(w, e.agent) && Next(w, e.agent, e.choice).Some? then 1 else 0)
      + UsefulSteps(Apply(w, e), events[1..])
  }

  /** A requested stop needs a bounded number of useful steps, in whatever order they come and
      whatever else happens in between; when none are left both workers have ended. */
  lemma {:induction false} StopCompletes(w: World, events: seq<Event>)
    requires Inv(w) && StopRequested(w)
    ensures UsefulSteps(w, events) + Remaining(After(w, events)) <= Remaining(w)
    decreases |events|
  {
    if events != [] {
      var e, v := events[0], Apply(w, events[0]);
      if Next(w, e.agent, e.choice).Some? {
        NextInv(w, e.agent, e.choice);
        StopProgresses(w, e.agent, e.choice);
        FirstReasonStands(w, [e]);
        assert After(w, [e]) == After(v, []);
      }
      hide Inv, Remaining, Useful, Next;
      StopCompletes(v, events[1..]);
    }
  }

  /** When nothing is left to do both workers have ended: a stop that runs out of useful steps is
      complete, and every stop() that waits for the workers can return. */
  lemma NothingLeftMeansEnded(w: World)
    requires Inv(w) && StopRequested(w) && Remaining(w) == 0
    ensures WorkersEnded(w)
  {
    if !WorkersEnded(w) {
      StopNeverStalls(w);
      var a: Agent :| Useful(w, a) && Next(w, a, TimeOut).Some?;
      StopProgresses(w, a, TimeOut);
    }
  }

  /** So after as many useful steps as there was left to do, in any order, both workers have ended. */
  lemma StopEnds(w: World, events: seq<Event>)
    requires Inv(w) && StopRequested(w) && UsefulSteps(w, events) >= Remaining(w)
    ensures WorkersEnded(After(w, events))
  {
    hide Inv, Remaining, UsefulSteps;
    StopCompletes(w, events);
    AfterInv(w, events);
    FirstReasonStands(w, events);
    NothingLeftMeansEnded(After(w, events));
  }
}
