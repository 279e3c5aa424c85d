/** What the upgrade client's callers may rely on, over every run. */
module UpgradeTheorems {
  import opened Clock32
  import opened UpgradeModel
  import opened UpgradeRuns
  import opened FirmwareUpdate
  import opened Wrappers

  function Run(w: World, events: seq<Event>): World
    decreases |events|
  {
    if events == [] then w else Run(Next(w, events[0]), events[1..])
  }

  // What every owner section adds to the log

  predicate OwnerEntry(w: World, entry: Entry) {
    match entry
    case BootAnswered(call, _) => call == w.bootFor
    case RebootAdmitted(call) => call == w.rebootFor
    case RebootAccepted(call) => call == w.rebootFor
    case BootReturned(_, _) => false
    case RebootReturned(_, _) => false
    case GaveUp(_) => false
    case UploadQueued(_) => false
    case _ => true
  }

  predicate OwnerEntries(w: World, added: seq<Entry>) {
    forall k :: 0 <= k < |added| ==> OwnerEntry(w, added[k])
  }

  function PollAdds(w: World, now: Word, e: Environment): seq<Entry> {
    var t := Poll(w.s, now, e);
    BootEntries(w.bootFor, w.s.boot, t.boot) + RebootEntries(w.rebootFor, w.s.reboot, t.reboot)
    + UploadEntries(w.s.upload, t.upload, now, e.sender)
  }

  function Optional(present: bool, entry: Entry): seq<Entry> { if present then [entry] else [] }

  function UploadLoss(u: UploadPart): seq<Entry> {
    Optional(Ends(u, LoseUpload(u)), UploadEnded(LoseUpload(u).progress.state))
  }

  function LossAdds(w: World, departed: bool, now: Word, report: Report<RebootMode>): seq<Entry> {
    RebootEntries(w.rebootFor, w.s.reboot, Collect(w.s.reboot, w.s.live, now, report).0)
    + Optional(departed, Departure)
    + UploadLoss(w.s.upload)
    + BootEntries(w.bootFor, w.s.boot, LoseBoot(w.s.boot))
  }

  lemma PollAddsTo(w: World, now: Word, e: Environment)
    ensures Polled(w, now, e).log == w.log + PollAdds(w, now, e)
    ensures OwnerEntries(w, PollAdds(w, now, e))
  {
    var t := Poll(w.s, now, e);
    hide Poll;
    var boot, reboot := BootEntries(w.bootFor, w.s.boot, t.boot), RebootEntries(w.rebootFor, w.s.reboot, t.reboot);
    var upload := UploadEntries(w.s.upload, t.upload, now, e.sender);
    PartsAreOwners(w, w.s.boot, t.boot, w.s.reboot, t.reboot, w.s.upload, t.upload, now, e.sender);
    hide BootEntries, RebootEntries, UploadEntries, OwnerEntry;
    assert ((w.log + boot) + reboot) + upload == w.log + (boot + reboot + upload);
  }

  lemma PartsAreOwners(w: World, b: BootPart, c: BootPart, r: RebootPart, t: RebootPart, u: UploadPart, v: UploadPart,
                       now: Word, sender: Sender)
    ensures OwnerEntries(w, BootEntries(w.bootFor, b, c)) && OwnerEntries(w, RebootEntries(w.rebootFor, r, t))
    ensures OwnerEntries(w, UploadEntries(u, v, now, sender))
  {
    hide AsksSender, Ends, Active;
  }

  lemma LossAddsTo(w: World, departed: bool, now: Word, report: Report<RebootMode>)
    ensures Lost(w, departed, now, report).log == w.log + LossAdds(w, departed, now, report)
    ensures OwnerEntries(w, LossAdds(w, departed, now, report))
  {
    var collected := Collect(w.s.reboot, w.s.live, now, report).0;
    LossParts(w.s, departed, now, report);
    hide Collect, Disconnect, LoseUpload, LoseBoot;
    var reboot, boot := RebootEntries(w.rebootFor, w.s.reboot, collected), BootEntries(w.bootFor, w.s.boot, LoseBoot(w.s.boot));
    LossIsOwners(w, collected, LoseBoot(w.s.boot), departed);
    hide BootEntries, RebootEntries, Ends, OwnerEntries;
    Regroup(w.log, reboot, Optional(departed, Departure), UploadLoss(w.s.upload), boot);
  }

  lemma LossParts(s: State, departed: bool, now: Word, report: Report<RebootMode>)
    ensures var t := Disconnect(s, departed, now, report); t.upload == LoseUpload(s.upload) && t.boot == LoseBoot(s.boot)
  {
  }

  lemma LossIsOwners(w: World, collected: RebootPart, boot: BootPart, departed: bool)
    ensures OwnerEntries(w, RebootEntries(w.rebootFor, w.s.reboot, collected) + Optional(departed, Departure)
                            + UploadLoss(w.s.upload) + BootEntries(w.bootFor, w.s.boot, boot))
  {
    hide LoseUpload, Ends;
  }

  // Boot status calls

  /** Every value returned by a boot status call was produced for that very call. */
  predicate BootReturnsOwn(log: seq<Entry>) {
    forall k :: 0 <= k < |log| && log[k].BootReturned? ==> BootAnswered(log[k].call, log[k].status) in log[..k]
  }

  predicate BootTold(w: World) {
    && BootReturnsOwn(w.log)
    && (w.bootCaller != 0 ==>
          && w.bootFor == w.bootCaller
          && (w.s.boot.pending || w.s.boot.done)
          && (w.s.boot.done ==> BootAnswered(w.bootCaller, w.s.boot.result) in w.log))
  }

  lemma BootReturnsOwnExtends(log: seq<Entry>, added: seq<Entry>)
    requires BootReturnsOwn(log)
    requires forall k :: 0 <= k < |added| && added[k].BootReturned? ==> BootAnswered(added[k].call, added[k].status) in log
    ensures BootReturnsOwn(log + added)
  {
    var all := log + added;
    forall k | 0 <= k < |all| && all[k].BootReturned? ensures BootAnswered(all[k].call, all[k].status) in all[..k] {
      if k < |log| {
        assert all[..k] == log[..k];
      } else {
        assert all[k] == added[k - |log|];
        var j :| 0 <= j < |log| && log[j] == BootAnswered(all[k].call, all[k].status);
        assert all[..k][j] == log[j];
      }
    }
  }

  /** An owner section answers the pending boot request, in the log and in the result, or
      leaves it pending. */
  lemma BootPollTold(w: World, v: World, added: seq<Entry>)
    requires BootTold(w) && Inv(w.s)
    requires v.log == w.log + added && OwnerEntries(w, added)
    requires v.bootCaller == w.bootCaller && v.bootFor == w.bootFor
    requires v.s.boot.pending ==> w.s.boot.pending && !v.s.boot.done
    requires !w.s.boot.pending ==> v.s.boot.done == w.s.boot.done && v.s.boot.result == w.s.boot.result
    requires w.s.boot.pending && !v.s.boot.pending ==> v.s.boot.done && BootAnswered(w.bootFor, v.s.boot.result) in added
    ensures BootTold(v)
  {
    BootReturnsOwnExtends(w.log, added);
  }

  lemma PollAnswersBoot(w: World, now: Word, e: Environment)
    requires Inv(w.s)
    ensures var t := Poll(w.s, now, e).boot;
            && (t.pending ==> w.s.boot.pending && !t.done)
            && (!w.s.boot.pending ==> t == w.s.boot)
            && (w.s.boot.pending && !t.pending ==> t.done && BootAnswered(w.bootFor, t.result) in PollAdds(w, now, e))
  {
    var t := Poll(w.s, now, e).boot;
    if w.s.boot.pending && !t.pending {
      assert PollAdds(w, now, e)[0] == BootAnswered(w.bootFor, t.result);
    }
  }

  lemma LossAnswersBoot(w: World, departed: bool, now: Word, report: Report<RebootMode>)
    requires Inv(w.s)
    ensures var t := Disconnect(w.s, departed, now, report).boot;
            && !t.pending
            && (!w.s.boot.pending ==> t.done == w.s.boot.done && t.result == w.s.boot.result)
            && (w.s.boot.pending ==> t.done && BootAnswered(w.bootFor, t.result) in LossAdds(w, departed, now, report))
  {
    var added := LossAdds(w, departed, now, report);
    var t := Disconnect(w.s, departed, now, report).boot;
    if w.s.boot.pending {
      assert added[|added| - 1] == BootAnswered(w.bootFor, t.result);
    }
  }

  lemma PollBootNext(w: World, now: Word, e: Environment)
    requires Inv(w.s) && BootTold(w)
    ensures BootTold(Polled(w, now, e))
  {
    PollAddsTo(w, now, e);
    PollAnswersBoot(w, now, e);
    hide BootTold, Inv, Poll, PollAdds, OwnerEntries;
    BootPollTold(w, Polled(w, now, e), PollAdds(w, now, e));
  }

  lemma LossBootNext(w: World, departed: bool, now: Word, report: Report<RebootMode>)
    requires Inv(w.s) && BootTold(w)
    ensures BootTold(Lost(w, departed, now, report))
  {
    LossAddsTo(w, departed, now, report);
    LossAnswersBoot(w, departed, now, report);
    hide BootTold, Inv, Disconnect, Collect, LossAdds, OwnerEntries;
    BootPollTold(w, Lost(w, departed, now, report), LossAdds(w, departed, now, report));
  }

  /** The boot history only looks at the boot machine, its caller and the log. */
  lemma SameBoot(v: World, w: World)
    requires BootTold(v)
    requires w.s.boot == v.s.boot && w.log == v.log && w.bootCaller == v.bootCaller && w.bootFor == v.bootFor
    ensures BootTold(w)
  {
  }

  /** A caller that returns or gives up leaves a history behind in which nobody waits. */
  lemma BootCallerLeaves(w: World, e: Event)
    requires BootTold(w) && (e.WakeBoot? || e.LeaveBoot?)
    ensures BootTold(Next(w, e))
  {
    if e.WakeBoot? && w.bootCaller != 0 && w.s.boot.done {
      BootReturnsOwnExtends(w.log, [BootReturned(w.bootCaller, w.s.boot.result)]);
    } else if e.LeaveBoot? {
      BootReturnsOwnExtends(w.log, [GaveUp(w.bootCaller)]);
    }
    hide BootReturnsOwn;
  }

  lemma BootCallerEnters(w: World, e: Event)
    requires BootTold(w) && e.CallBoot?
    ensures BootTold(Next(w, e))
  {
    hide BootReturnsOwn;
  }

  lemma BootUntouched(w: World, e: Event, said: seq<Entry>)
    requires BootTold(w) && !ByOwner(e) && !e.WakeBoot? && !e.LeaveBoot? && !e.CallBoot?
    requires Next(w, e).log == w.log + said && |said| <= 1 && (said != [] ==> !said[0].BootReturned?)
    ensures BootTold(Next(w, e))
  {
    BootReturnsOwnExtends(w.log, said);
    var v := Next(w, e);
    assert v.s.boot == w.s.boot && v.bootCaller == w.bootCaller && v.bootFor == w.bootFor;
    hide Next, BootReturnsOwn;
  }

  lemma BootNext(w: World, e: Event)
    requires Inv(w.s) && BootTold(w)
    ensures BootTold(Next(w, e))
  {
    hide BootTold, Inv, FreshStarts, Polled, Lost;
    if e.OwnerPoll? {
      if FreshStarts(w.s, e.now, e.environment) { PollBootNext(w, e.now, e.environment); }
    } else if e.Transport? {
      var u := w.(s := w.s.(connected := e.connected));
      SameBoot(w, u);
      Reconnected(w.s, e.connected);
      LossBootNext(u, true, e.now, e.report);
    } else if e.Lose? {
      LossBootNext(w, e.departed, e.now, e.report);
    } else if e.WakeBoot? || e.LeaveBoot? {
      BootCallerLeaves(w, e);
    } else if e.CallBoot? {
      BootCallerEnters(w, e);
    } else {
      CallersSay(w, e);
      BootUntouched(w, e, CallerSays(w, e));
    }
  }

  // Answers come after their call began

  predicate AnsweredBy(log: seq<Entry>, calls: nat) {
    forall k :: 0 <= k < |log| && log[k].BootAnswered? ==> log[k].call <= calls
  }

  predicate AnswersTold(w: World) { w.bootFor <= w.calls && AnsweredBy(w.log, w.calls) }

  lemma AnswersExtend(log: seq<Entry>, added: seq<Entry>, calls: nat, more: nat)
    requires AnsweredBy(log, calls) && AnsweredBy(added, more) && calls <= more
    ensures AnsweredBy(log + added, more)
  {
  }

  lemma OwnersAnswer(w: World, added: seq<Entry>)
    requires OwnerEntries(w, added) && w.bootFor <= w.calls
    ensures AnsweredBy(added, w.calls)
  {
    forall k | 0 <= k < |added| && added[k].BootAnswered? ensures added[k].call <= w.calls {
      assert OwnerEntry(w, added[k]);
    }
  }

  lemma OwnerAnswersNext(w: World, e: Event)
    requires AnswersTold(w) && ByOwner(e)
    ensures AnswersTold(Next(w, e))
  {
    hide AnsweredBy, OwnerEntries, FreshStarts, PollAdds, LossAdds, Poll, Disconnect, Collect;
    if e.OwnerPoll? {
      PollAddsTo(w, e.now, e.environment);
      OwnersAnswer(w, PollAdds(w, e.now, e.environment));
      AnswersExtend(w.log, PollAdds(w, e.now, e.environment), w.calls, w.calls);
    } else {
      var u := if e.Transport? then w.(s := w.s.(connected := e.connected)) else w;
      var departed := e.Transport? || e.departed;
      LossAddsTo(u, departed, e.now, e.report);
      OwnersAnswer(u, LossAdds(u, departed, e.now, e.report));
      AnswersExtend(u.log, LossAdds(u, departed, e.now, e.report), u.calls, u.calls);
    }
  }

  lemma AnswersNext(w: World, e: Event)
    requires AnswersTold(w)
    ensures AnswersTold(Next(w, e)) && w.calls <= Next(w, e).calls
  {
    if ByOwner(e) {
      OwnerAnswersNext(w, e);
      hide AnsweredBy, Poll, Disconnect, Collect, FreshStarts;
    } else {
      CallersSay(w, e);
      AnswersExtend(w.log, CallerSays(w, e), w.calls, Next(w, e).calls);
    }
  }

  lemma {:induction false} RunAnswers(w: World, events: seq<Event>)
    requires AnswersTold(w)
    ensures AnswersTold(Run(w, events))
    decreases |events|
  {
    if events != [] {
      hide AnswersTold, Next;
      AnswersNext(w, events[0]);
      RunAnswers(Next(w, events[0]), events[1..]);
    }
  }

  // Reboot calls

  /** The call's request was accepted, and after that the device was seen to depart. */
  predicate AcceptedThenLeft(log: seq<Entry>, call: nat) {
    exists i, j :: 0 <= i < j < |log| && log[i] == RebootAccepted(call) && log[j] == Departure
  }

  predicate RebootReturnsTruth(log: seq<Entry>) {
    forall k :: 0 <= k < |log| && log[k].RebootReturned? && log[k].result.error == NoError ==>
      AcceptedThenLeft(log[..k], log[k].call)
  }

  predicate RebootsAdmittedOnce(log: seq<Entry>) {
    forall j, k :: 0 <= j < k < |log| && log[j].RebootAdmitted? && log[k].RebootAdmitted? ==> log[j].call != log[k].call
  }

  predicate AdmittedBy(log: seq<Entry>, calls: nat) {
    forall k :: 0 <= k < |log| && log[k].RebootAdmitted? ==> log[k].call <= calls
  }

  predicate RebootTold(w: World) {
    var r := w.s.reboot;
    && RebootReturnsTruth(w.log) && RebootsAdmittedOnce(w.log) && AdmittedBy(w.log, w.calls)
    && w.rebootFor <= w.calls
    && (w.rebootCaller != 0 ==> w.rebootFor == w.rebootCaller)
    && (r.pending && r.result.accepted ==> RebootAccepted(w.rebootFor) in w.log)
    && (r.done && r.result.error == NoError ==> AcceptedThenLeft(w.log, w.rebootFor))
    && (r.pending && r.id == 0 && !r.result.accepted ==> RebootAdmitted(w.rebootFor) !in w.log)
  }

  lemma AcceptedThenLeftExtends(log: seq<Entry>, added: seq<Entry>, call: nat)
    requires AcceptedThenLeft(log, call)
    ensures AcceptedThenLeft(log + added, call)
  {
    var i, j :| 0 <= i < j < |log| && log[i] == RebootAccepted(call) && log[j] == Departure;
    assert (log + added)[i] == log[i] && (log + added)[j] == log[j];
  }

  lemma RebootReturnsTruthExtends(log: seq<Entry>, added: seq<Entry>)
    requires RebootReturnsTruth(log)
    requires forall k :: 0 <= k < |added| && added[k].RebootReturned? && added[k].result.error == NoError ==>
               AcceptedThenLeft(log, added[k].call)
    ensures RebootReturnsTruth(log + added)
  {
    var all := log + added;
    forall k | 0 <= k < |all| && all[k].RebootReturned? && all[k].result.error == NoError
      ensures AcceptedThenLeft(all[..k], all[k].call)
    {
      if k < |log| {
        assert all[..k] == log[..k];
      } else {
        assert all[k] == added[k - |log|];
        AcceptedThenLeftExtends(log, added[..k - |log|], all[k].call);
        assert all[..k] == log + added[..k - |log|];
      }
    }
  }

  /** A section that admits no reboot extends the reboot history. */
  lemma HistoryExtends(w: World, added: seq<Entry>)
    requires RebootTold(w)
    requires forall k :: 0 <= k < |added| ==> !added[k].RebootAdmitted?
    requires forall k :: 0 <= k < |added| && added[k].RebootReturned? && added[k].result.error == NoError ==>
               AcceptedThenLeft(w.log, added[k].call)
    ensures RebootTold(w.(log := w.log + added))
  {
    var r := w.s.reboot;
    RebootReturnsTruthExtends(w.log, added);
    if r.done && r.result.error == NoError { AcceptedThenLeftExtends(w.log, added, w.rebootFor); }
  }

  lemma HistoryAdmits(log: seq<Entry>, added: seq<Entry>, call: nat, calls: nat)
    requires RebootReturnsTruth(log) && RebootsAdmittedOnce(log) && AdmittedBy(log, calls) && call <= calls
    requires added == [RebootAdmitted(call)] ==> RebootAdmitted(call) !in log
    requires added == [RebootAdmitted(call)] || (forall k :: 0 <= k < |added| ==> !added[k].RebootAdmitted?)
    requires forall k :: 0 <= k < |added| ==> !added[k].RebootReturned?
    ensures RebootReturnsTruth(log + added) && RebootsAdmittedOnce(log + added) && AdmittedBy(log + added, calls)
  {
    RebootReturnsTruthExtends(log, added);
  }

  /** The reboot machine's own step, before anything else a section logs. */
  lemma RebootStepTold(w: World, live: set<nat>, now: Word, start: Start, report: Report<RebootMode>)
    requires RebootTold(w) && RebootOk(w.s.reboot) && FreshFor({}, start)
    ensures var t := PollReboot(w.s.reboot, live, now, start, report).0;
            RebootTold(w.(s := w.s.(reboot := t), log := w.log + RebootEntries(w.rebootFor, w.s.reboot, t)))
  {
    var r := w.s.reboot;
    var t := PollReboot(r, live, now, start, report).0;
    var added := RebootEntries(w.rebootFor, r, t);
    HistoryAdmits(w.log, added, w.rebootFor, w.calls);
    if t.done && t.result.error == NoError { AcceptedThenLeftExtends(w.log, added, w.rebootFor); }
    if t.pending && t.result.accepted && !r.result.accepted {
      assert (w.log + added)[|w.log|] == RebootAccepted(w.rebootFor);
    }
  }

  lemma RebootPollTold(w: World, now: Word, e: Environment)
    requires Inv(w.s) && RebootTold(w) && FreshStarts(w.s, now, e)
    ensures RebootTold(Polled(w, now, e))
  {
    var t := Poll(w.s, now, e);
    var live1 := PollBoot(w.s.boot, w.s.live, now, e.bootStart, e.bootReport).1;
    assert t.reboot == PollReboot(w.s.reboot, live1, now, e.rebootStart, e.rebootReport).0;
    assert FreshFor({}, e.rebootStart);
    hide Poll, PollBoot, PollReboot, RebootTold, FreshStarts;
    var first := BootEntries(w.bootFor, w.s.boot, t.boot);
    HistoryExtends(w, first);
    var u := w.(log := w.log + first);
    RebootStepTold(u, live1, now, e.rebootStart, e.rebootReport);
    var v := u.(s := u.s.(reboot := t.reboot), log := u.log + RebootEntries(w.rebootFor, w.s.reboot, t.reboot));
    var last := UploadEntries(w.s.upload, t.upload, now, e.sender);
    HistoryExtends(v, last);
    assert Polled(w, now, e).log == v.log + last;
    SameReboot(v.(log := v.log + last), Polled(w, now, e));
  }

  lemma CollectedTold(w: World, now: Word, report: Report<RebootMode>)
    requires RebootTold(w) && RebootOk(w.s.reboot)
    ensures var t := Collect(w.s.reboot, w.s.live, now, report).0;
            && RebootTold(w.(s := w.s.(reboot := t), log := w.log + RebootEntries(w.rebootFor, w.s.reboot, t)))
            && RebootOk(t)
  {
    var r := w.s.reboot;
    if r.pending && r.id != 0 {
      RebootStepTold(w, w.s.live, now, TryLater, report);
    } else {
      assert w.log + [] == w.log;
    }
  }

  /** Departure turns an accepted request into success, and nothing else does. */
  lemma DepartureTold(w: World, departed: bool)
    requires RebootTold(w) && RebootOk(w.s.reboot)
    ensures var t := LoseReboot(w.s.reboot, departed);
            RebootTold(w.(s := w.s.(reboot := t), log := w.log + Optional(departed, Departure)))
  {
    var r := w.s.reboot;
    var added := Optional(departed, Departure);
    HistoryExtends(w, added);
    if r.pending && departed && r.result.accepted {
      var i :| 0 <= i < |w.log| && w.log[i] == RebootAccepted(w.rebootFor);
      assert (w.log + added)[i] == w.log[i] && (w.log + added)[|w.log|] == Departure;
    }
  }

  lemma RebootLossTold(w: World, departed: bool, now: Word, report: Report<RebootMode>)
    requires Inv(w.s) && RebootTold(w)
    ensures RebootTold(Lost(w, departed, now, report))
  {
    var collected := Collect(w.s.reboot, w.s.live, now, report).0;
    CollectedTold(w, now, report);
    var u := w.(s := w.s.(reboot := collected), log := w.log + RebootEntries(w.rebootFor, w.s.reboot, collected));
    DepartureTold(u, departed);
    var v := u.(s := u.s.(reboot := LoseReboot(collected, departed)), log := u.log + Optional(departed, Departure));
    var last := UploadLoss(w.s.upload) + BootEntries(w.bootFor, w.s.boot, LoseBoot(w.s.boot));
    HistoryExtends(v, last);
    LossAddsTo(w, departed, now, report);
    Regroup(w.log, RebootEntries(w.rebootFor, w.s.reboot, collected), Optional(departed, Departure),
            UploadLoss(w.s.upload), BootEntries(w.bootFor, w.s.boot, LoseBoot(w.s.boot)));
    SameReboot(v.(log := v.log + last), Lost(w, departed, now, report));
  }

  lemma Regroup<T>(a: seq<T>, b: seq<T>, c: seq<T>, d: seq<T>, e: seq<T>)
    ensures a + (b + c + d + e) == ((a + b) + c) + (d + e) == (((a + (b + c)) + d) + e)
  {
  }

  /** The reboot history only looks at the reboot machine, the calls and the log. */
  lemma SameReboot(v: World, w: World)
    requires RebootTold(v)
    requires w.s.reboot == v.s.reboot && w.log == v.log
    requires w.calls == v.calls && w.rebootFor == v.rebootFor && w.rebootCaller == v.rebootCaller
    ensures RebootTold(w)
  {
  }

  predicate ByOwner(e: Event) { e.OwnerPoll? || e.Transport? || e.Lose? }

  lemma RebootCallerLeaves(w: World, e: Event)
    requires RebootTold(w) && (e.WakeReboot? || e.LeaveReboot?)
    ensures RebootTold(Next(w, e))
  {
    if e.WakeReboot? && w.rebootCaller != 0 && w.s.reboot.done {
      HistoryExtends(w, [RebootReturned(w.rebootCaller, w.s.reboot.result)]);
    } else if e.LeaveReboot? {
      HistoryExtends(w, [RebootReturned(w.rebootCaller, w.s.reboot.result.(error := Timeout))]);
    }
    hide RebootReturnsTruth, RebootsAdmittedOnce, AdmittedBy, AcceptedThenLeft;
  }

  lemma RebootCallerEnters(w: World, e: Event)
    requires RebootTold(w) && (e.CallReboot? || e.CallBoot?)
    ensures RebootTold(Next(w, e))
  {
    hide RebootReturnsTruth, RebootsAdmittedOnce, AcceptedThenLeft;
  }

  /** Sections that touch neither the reboot machine nor its calls. */
  lemma RebootUntouched(w: World, e: Event, said: seq<Entry>)
    requires RebootTold(w) && !ByOwner(e)
    requires !e.WakeReboot? && !e.LeaveReboot? && !e.CallReboot? && !e.CallBoot?
    requires Next(w, e).log == w.log + said && |said| <= 1
    requires said != [] ==> !said[0].RebootAdmitted? && !said[0].RebootReturned?
    ensures RebootTold(Next(w, e))
  {
    var v := Next(w, e);
    assert v.s.reboot == w.s.reboot && v.calls == w.calls;
    assert v.rebootFor == w.rebootFor && v.rebootCaller == w.rebootCaller;
    hide Next, RebootTold, AcceptedThenLeft;
    HistoryExtends(w, said);
    SameReboot(w.(log := w.log + said), v);
  }

  lemma RebootCallerNext(w: World, e: Event)
    requires Inv(w.s) && RebootTold(w) && !ByOwner(e)
    ensures RebootTold(Next(w, e))
  {
    hide RebootTold, Inv;
    if e.WakeReboot? || e.LeaveReboot? {
      RebootCallerLeaves(w, e);
    } else if e.CallReboot? || e.CallBoot? {
      RebootCallerEnters(w, e);
    } else {
      CallersSay(w, e);
      RebootUntouched(w, e, CallerSays(w, e));
    }
  }

  lemma RebootNext(w: World, e: Event)
    requires Inv(w.s) && RebootTold(w)
    ensures RebootTold(Next(w, e))
  {
    hide RebootTold, Inv, FreshStarts, Polled, Lost;
    if !ByOwner(e) {
      RebootCallerNext(w, e);
    } else if e.OwnerPoll? {
      if FreshStarts(w.s, e.now, e.environment) { RebootPollTold(w, e.now, e.environment); }
    } else if e.Transport? {
      var v := w.(s := w.s.(connected := e.connected));
      SameReboot(w, v);
      Reconnected(w.s, e.connected);
      RebootLossTold(v, true, e.now, e.report);
    } else {
      RebootLossTold(w, e.departed, e.now, e.report);
    }
  }

  // Uploads

  /** What the log says about the current upload. */
  datatype Facts = Facts(admitted: bool, completed: bool, aborted: bool, failed: bool)

  function Observe(f: Facts, entry: Entry): Facts {
    match entry
    case UploadQueued(_) => Facts(false, false, false, false)
    case StartAdmitted => f.(admitted := true)
    case SenderReported(sender) =>
      f.(completed := f.completed || sender == SenderCompleted, aborted := f.aborted || sender == SenderAborted)
    case FailureRecorded => f.(failed := true)
    case _ => f
  }

  function FactsOf(log: seq<Entry>): Facts {
    if log == [] then Facts(false, false, false, false)
    else Observe(FactsOf(log[..|log| - 1]), log[|log| - 1])
  }

  /** Completed exactly if the sender said so; cancelled only if no upgrade was ever started
      on the device or the sender went through an abort, and never after a failure. */
  predicate Truthful(f: Facts, outcome: UploadState) {
    && (outcome == Completed <==> f.completed)
    && (outcome == Aborted ==> (!f.admitted || f.aborted) && !f.failed)
    && (outcome == Completed || outcome == Aborted || outcome == Failed)
  }

  predicate EndsTruthfully(log: seq<Entry>) {
    log == [] ||
    (var n := |log| - 1;
     EndsTruthfully(log[..n]) && (log[n].UploadEnded? ==> Truthful(FactsOf(log[..n]), log[n].outcome)))
  }

  lemma {:induction false} EachEndsTruthfully(log: seq<Entry>, k: nat)
    requires EndsTruthfully(log) && k < |log| && log[k].UploadEnded?
    ensures Truthful(FactsOf(log[..k]), log[k].outcome)
  {
    var n := |log| - 1;
    if k < n {
      EachEndsTruthfully(log[..n], k);
      assert log[..n][..k] == log[..k];
    }
  }

  predicate UploadTold(w: World) {
    && EndsTruthfully(w.log)
    && UploadFacts(w.s.upload, FactsOf(w.log))
  }

  predicate UploadFacts(u: UploadPart, f: Facts) {
    Active(u.progress) ==>
      && (u.progress.state == Queued ==> !f.admitted)
      && (u.progress.error != NoError <==> f.failed)
      && !f.completed
  }

  lemma LogOne(log: seq<Entry>, entry: Entry)
    requires EndsTruthfully(log)
    requires entry.UploadEnded? ==> Truthful(FactsOf(log), entry.outcome)
    ensures FactsOf(log + [entry]) == Observe(FactsOf(log), entry)
    ensures EndsTruthfully(log + [entry])
  {
    assert (log + [entry])[..|log|] == log;
  }

  predicate Silent(entry: Entry) {
    !entry.UploadQueued? && !entry.StartAdmitted? && !entry.SenderReported? && !entry.FailureRecorded? && !entry.UploadEnded?
  }

  lemma {:induction false} LogSilent(log: seq<Entry>, added: seq<Entry>)
    requires EndsTruthfully(log) && forall k :: 0 <= k < |added| ==> Silent(added[k])
    ensures FactsOf(log + added) == FactsOf(log) && EndsTruthfully(log + added)
    decreases |added|
  {
    if added == [] {
      assert log + added == log;
    } else {
      var n := |added| - 1;
      LogSilent(log, added[..n]);
      LogOne(log + added[..n], added[n]);
      assert log + added == (log + added[..n]) + [added[n]];
    }
  }

  lemma LogOptional(log: seq<Entry>, present: bool, entry: Entry)
    requires EndsTruthfully(log)
    requires present && entry.UploadEnded? ==> Truthful(FactsOf(log), entry.outcome)
    ensures FactsOf(log + Optional(present, entry)) == (if present then Observe(FactsOf(log), entry) else FactsOf(log))
    ensures EndsTruthfully(log + Optional(present, entry))
  {
    if present { LogOne(log, entry); } else { assert log + [] == log; }
  }

  /** One poll of the upload machine, seen through the facts its entries tell. */
  lemma UploadStepFacts(u: UploadPart, live: set<nat>, now: Word, e: Environment, f: Facts)
    requires UploadOk(u) && UploadFacts(u, f) && FreshFor(live, e.uploadStart)
    ensures StepTold(u, PollUpload(u, live, now, e).0, AsksSender(u, now), e.sender.state, f)
  {
    var asked := AsksSender(u, now);
    var v := PollUpload(u, live, now, e).0;
    if v == PollSender(u, e.sender) && asked {
      SenderStepFacts(u, e.sender, f);
    } else if u.progress.state == Queued || u.progress.state == Starting {
      StartStepFacts(u, live, e, f);
    }
  }

  predicate StepTold(u: UploadPart, v: UploadPart, asked: bool, sender: SenderState, f: Facts) {
    var g := Told(f, Begins(u, v), asked, sender, Fails(u, v));
    UploadFacts(v, g) && (Ends(u, v) ==> Truthful(g, v.progress.state))
  }

  lemma SenderStepFacts(u: UploadPart, sender: Sender, f: Facts)
    requires UploadOk(u) && UploadFacts(u, f) && (u.progress.state == Uploading || u.progress.state == Cancelling)
    ensures StepTold(u, PollSender(u, sender), true, sender.state, f)
  {
  }

  lemma StartStepFacts(u: UploadPart, live: set<nat>, e: Environment, f: Facts)
    requires UploadOk(u) && UploadFacts(u, f) && FreshFor(live, e.uploadStart)
    requires u.progress.state == Queued || u.progress.state == Starting
    ensures StepTold(u, PollStart(u, live, e.uploadStart, e.uploadReport, e.senderStarts).0, false, e.sender.state, f)
  {
    hide Usable;
  }

  predicate Begins(u: UploadPart, v: UploadPart) { u.id == 0 && v.id != 0 }

  predicate Fails(u: UploadPart, v: UploadPart) {
    u.progress.error == NoError && Active(v.progress) && v.progress.error != NoError
  }

  function Told(f: Facts, begins: bool, asks: bool, sender: SenderState, fails: bool): Facts {
    var f1 := if begins then Observe(f, StartAdmitted) else f;
    var f2 := if asks then Observe(f1, SenderReported(sender)) else f1;
    if fails then Observe(f2, FailureRecorded) else f2
  }

  lemma LogTold(log: seq<Entry>, begins: bool, asks: bool, sender: SenderState, fails: bool)
    requires EndsTruthfully(log)
    ensures var all := ((log + Optional(begins, StartAdmitted)) + Optional(asks, SenderReported(sender)))
                       + Optional(fails, FailureRecorded);
            EndsTruthfully(all) && FactsOf(all) == Told(FactsOf(log), begins, asks, sender, fails)
  {
    var log1 := log + Optional(begins, StartAdmitted);
    LogOptional(log, begins, StartAdmitted);
    LogOptional(log1, asks, SenderReported(sender));
    LogOptional(log1 + Optional(asks, SenderReported(sender)), fails, FailureRecorded);
  }

  lemma LogFour(log: seq<Entry>, begins: bool, asks: bool, sender: SenderState, fails: bool, ends: bool, outcome: UploadState)
    requires EndsTruthfully(log)
    requires ends ==> Truthful(Told(FactsOf(log), begins, asks, sender, fails), outcome)
    ensures var all := log + (Optional(begins, StartAdmitted) + Optional(asks, SenderReported(sender))
                              + Optional(fails, FailureRecorded) + Optional(ends, UploadEnded(outcome)));
            EndsTruthfully(all) && FactsOf(all) == Told(FactsOf(log), begins, asks, sender, fails)
  {
    LogTold(log, begins, asks, sender, fails);
    LogOptional(((log + Optional(begins, StartAdmitted)) + Optional(asks, SenderReported(sender)))
                + Optional(fails, FailureRecorded), ends, UploadEnded(outcome));
    Concatenate(log, Optional(begins, StartAdmitted), Optional(asks, SenderReported(sender)),
                Optional(fails, FailureRecorded), Optional(ends, UploadEnded(outcome)));
  }

  lemma Concatenate<T>(a: seq<T>, b: seq<T>, c: seq<T>, d: seq<T>, e: seq<T>)
    ensures a + (b + c + d + e) == ((a + b) + c + d) + e
  {
  }

  lemma LogUpload(log: seq<Entry>, u: UploadPart, live: set<nat>, now: Word, e: Environment)
    requires EndsTruthfully(log) && UploadOk(u) && UploadFacts(u, FactsOf(log)) && FreshFor(live, e.uploadStart)
    ensures var v := PollUpload(u, live, now, e).0;
            var all := log + UploadEntries(u, v, now, e.sender);
            EndsTruthfully(all) && UploadFacts(v, FactsOf(all))
  {
    var v := PollUpload(u, live, now, e).0;
    UploadStepFacts(u, live, now, e, FactsOf(log));
    LogEntries(log, u, v, now, e.sender);
  }

  lemma LogEntries(log: seq<Entry>, u: UploadPart, v: UploadPart, now: Word, sender: Sender)
    requires EndsTruthfully(log)
    requires Ends(u, v) ==>
               Truthful(Told(FactsOf(log), Begins(u, v), AsksSender(u, now), sender.state, Fails(u, v)), v.progress.state)
    ensures var all := log + UploadEntries(u, v, now, sender);
            EndsTruthfully(all)
            && FactsOf(all) == Told(FactsOf(log), Begins(u, v), AsksSender(u, now), sender.state, Fails(u, v))
  {
    LogFour(log, Begins(u, v), AsksSender(u, now), sender.state, Fails(u, v), Ends(u, v), v.progress.state);
    assert UploadEntries(u, v, now, sender)
        == Optional(Begins(u, v), StartAdmitted) + Optional(AsksSender(u, now), SenderReported(sender.state))
           + Optional(Fails(u, v), FailureRecorded) + Optional(Ends(u, v), UploadEnded(v.progress.state));
  }

  lemma UploadPollTold(w: World, now: Word, e: Environment)
    requires Inv(w.s) && UploadTold(w) && FreshStarts(w.s, now, e)
    ensures UploadTold(Polled(w, now, e))
  {
    var (boot, live1) := PollBoot(w.s.boot, w.s.live, now, e.bootStart, e.bootReport);
    var (reboot, live2) := PollReboot(w.s.reboot, live1, now, e.rebootStart, e.rebootReport);
    var silent := BootEntries(w.bootFor, w.s.boot, boot) + RebootEntries(w.rebootFor, w.s.reboot, reboot);
    PollLog(w, now, e);
    hide PollBoot, PollReboot, PollUpload, Polled, UploadOk, UploadFacts, EndsTruthfully;
    LogSilent(w.log, silent);
    LogUpload(w.log + silent, w.s.upload, live2, now, e);
  }

  lemma PollLog(w: World, now: Word, e: Environment)
    ensures var (boot, live1) := PollBoot(w.s.boot, w.s.live, now, e.bootStart, e.bootReport);
            var (reboot, live2) := PollReboot(w.s.reboot, live1, now, e.rebootStart, e.rebootReport);
            var (upload, live3) := PollUpload(w.s.upload, live2, now, e);
            && Polled(w, now, e).s.upload == upload
            && Polled(w, now, e).log
               == (w.log + (BootEntries(w.bootFor, w.s.boot, boot) + RebootEntries(w.rebootFor, w.s.reboot, reboot)))
                  + UploadEntries(w.s.upload, upload, now, e.sender)
  {
  }

  /** An upload that is lost ends as failed. */
  lemma LossIsTruthful(u: UploadPart, f: Facts)
    requires UploadOk(u) && UploadFacts(u, f) && Ends(u, LoseUpload(u))
    ensures Truthful(f, LoseUpload(u).progress.state)
  {
  }

  lemma LogLoss(log: seq<Entry>, u: UploadPart, before: seq<Entry>, after: seq<Entry>)
    requires EndsTruthfully(log) && UploadOk(u) && UploadFacts(u, FactsOf(log))
    requires forall k :: 0 <= k < |before| ==> Silent(before[k])
    requires forall k :: 0 <= k < |after| ==> Silent(after[k])
    ensures EndsTruthfully(((log + before) + UploadLoss(u)) + after)
  {
    hide EndsTruthfully, FactsOf, Silent, UploadOk, UploadFacts, LoseUpload, Ends, Truthful;
    LogSilent(log, before);
    if Ends(u, LoseUpload(u)) { LossIsTruthful(u, FactsOf(log)); }
    LogOptional(log + before, Ends(u, LoseUpload(u)), UploadEnded(LoseUpload(u).progress.state));
    LossIsLoud(u);
    LogSilent((log + before) + UploadLoss(u), after);
  }

  lemma LossIsLoud(u: UploadPart)
    ensures UploadLoss(u) == Optional(Ends(u, LoseUpload(u)), UploadEnded(LoseUpload(u).progress.state))
  {
  }

  lemma LossIsSilent(w: World, collected: RebootPart, departed: bool)
    ensures forall k :: 0 <= k < |RebootEntries(w.rebootFor, w.s.reboot, collected) + Optional(departed, Departure)| ==>
              Silent((RebootEntries(w.rebootFor, w.s.reboot, collected) + Optional(departed, Departure))[k])
    ensures forall k :: 0 <= k < |BootEntries(w.bootFor, w.s.boot, LoseBoot(w.s.boot))| ==>
              Silent(BootEntries(w.bootFor, w.s.boot, LoseBoot(w.s.boot))[k])
  {
  }

  lemma LossLog(w: World, departed: bool, now: Word, report: Report<RebootMode>)
    ensures Lost(w, departed, now, report).log
         == ((w.log + (RebootEntries(w.rebootFor, w.s.reboot, Collect(w.s.reboot, w.s.live, now, report).0)
                       + Optional(departed, Departure)))
             + UploadLoss(w.s.upload)) + BootEntries(w.bootFor, w.s.boot, LoseBoot(w.s.boot))
  {
    LossAddsTo(w, departed, now, report);
    Regroup(w.log, RebootEntries(w.rebootFor, w.s.reboot, Collect(w.s.reboot, w.s.live, now, report).0),
            Optional(departed, Departure), UploadLoss(w.s.upload), BootEntries(w.bootFor, w.s.boot, LoseBoot(w.s.boot)));
  }

  lemma UploadLossTold(w: World, departed: bool, now: Word, report: Report<RebootMode>)
    requires Inv(w.s) && UploadTold(w)
    ensures UploadTold(Lost(w, departed, now, report))
  {
    var collected := Collect(w.s.reboot, w.s.live, now, report).0;
    var v := Lost(w, departed, now, report);
    LossLog(w, departed, now, report);
    assert UploadOk(w.s.upload) && v.s.upload == LoseUpload(w.s.upload) && !Active(v.s.upload.progress);
    LossIsSilent(w, collected, departed);
    hide Lost, Collect, LoseUpload, LoseBoot, RebootEntries, BootEntries, UploadLoss, UploadOk, EndsTruthfully, FactsOf, Silent;
    LogLoss(w.log, w.s.upload, RebootEntries(w.rebootFor, w.s.reboot, collected) + Optional(departed, Departure),
            BootEntries(w.bootFor, w.s.boot, LoseBoot(w.s.boot)));
  }

  /** A section that logs at most one silent entry and does not touch the upload's progress. */
  lemma UploadUntouched(w: World, v: World, said: seq<Entry>)
    requires UploadTold(w) && v.s.upload.progress == w.s.upload.progress
    requires v.log == w.log + said && |said| <= 1 && (said != [] ==> Silent(said[0]))
    ensures UploadTold(v)
  {
    LogSilent(w.log, said);
    hide EndsTruthfully, FactsOf, Silent;
  }

  lemma NewUploadTold(w: World, image: seq<int>, options: Options, now: Word)
    requires UploadTold(w)
    ensures UploadTold(Next(w, Upload(image, options, now)))
  {
    LogOne(w.log, UploadQueued(|image|));
  }

  function CallerSays(w: World, e: Event): seq<Entry> {
    if e.WakeBoot? && w.bootCaller != 0 && w.s.boot.done then [BootReturned(w.bootCaller, w.s.boot.result)]
    else if e.LeaveBoot? && w.bootCaller != 0 && !w.s.boot.done then [GaveUp(w.bootCaller)]
    else if e.WakeReboot? && w.rebootCaller != 0 && w.s.reboot.done then [RebootReturned(w.rebootCaller, w.s.reboot.result)]
    else if e.LeaveReboot? && w.rebootCaller != 0 && !w.s.reboot.done then
      [RebootReturned(w.rebootCaller, w.s.reboot.result.(error := Timeout))]
    else if e.Upload? && StartUpload(w.s, e.image, e.options, e.now).1 == NoError then [UploadQueued(|e.image|)]
    else []
  }

  lemma CallersSay(w: World, e: Event)
    requires !ByOwner(e)
    ensures Next(w, e).log == w.log + CallerSays(w, e)
    ensures e.Upload? || Next(w, e).s.upload.progress == w.s.upload.progress
  {
  }

  lemma UploadCallerNext(w: World, e: Event)
    requires UploadTold(w) && !ByOwner(e)
    ensures UploadTold(Next(w, e))
  {
    if e.Upload? {
      NewUploadTold(w, e.image, e.options, e.now);
    } else {
      CallersSay(w, e);
      UploadUntouched(w, Next(w, e), CallerSays(w, e));
    }
  }

  lemma UploadNext(w: World, e: Event)
    requires Inv(w.s) && UploadTold(w)
    ensures UploadTold(Next(w, e))
  {
    if e.Transport? {
      Reconnected(w.s, e.connected);
      assert UploadTold(w.(s := w.s.(connected := e.connected)));
    }
    hide UploadTold, Inv, FreshStarts, Polled, Lost;
    if !ByOwner(e) {
      UploadCallerNext(w, e);
    } else if e.OwnerPoll? {
      if FreshStarts(w.s, e.now, e.environment) { UploadPollTold(w, e.now, e.environment); }
    } else if e.Transport? {
      UploadLossTold(w.(s := w.s.(connected := e.connected)), true, e.now, e.report);
    } else {
      UploadLossTold(w, e.departed, e.now, e.report);
    }
  }

  // The theorems

  lemma {:induction false} RunTold(w: World, events: seq<Event>)
    requires Inv(w.s) && BootTold(w) && RebootTold(w) && UploadTold(w)
    ensures var v := Run(w, events); Inv(v.s) && BootTold(v) && RebootTold(v) && UploadTold(v)
    decreases |events|
  {
    if events != [] {
      hide Inv, BootTold, RebootTold, UploadTold, Next;
      NextInv(w, events[0]);
      BootNext(w, events[0]);
      RebootNext(w, events[0]);
      UploadNext(w, events[0]);
      RunTold(Next(w, events[0]), events[1..]);
    }
  }

  /** The upload, reboot and verification claims exclude each other as they must; ids mark
      exactly the phases that have a call; the runtime holds exactly those calls; and an
      active upload holds an image of the length it announced. */
  lemma SharedStateAlwaysSound(events: seq<Event>)
    ensures Inv(Run(START, events).s)
  {
    RunTold(START, events);
  }

  /** Whatever bootStatus() returns other than its own timeout was read for that call: never
      the answer to an earlier caller that gave up waiting. */
  lemma BootStatusIsCurrent(events: seq<Event>, k: nat)
    ensures var log := Run(START, events).log;
            k < |log| && log[k].BootReturned? ==> BootAnswered(log[k].call, log[k].status) in log[..k]
  {
    RunTold(START, events);
  }

  /** And it was read after that call began: no answer to it was there as long as the call was still
      to come. */
  lemma BootStatusIsReadDuringItsCall(before: seq<Event>, call: nat, status: BootStatus)
    requires Run(START, before).calls < call
    ensures BootAnswered(call, status) !in Run(START, before).log
  {
    RunAnswers(START, before);
    hide Run;
  }

  /** reboot() reports no error only if this call's own request was accepted and the device
      was then seen to depart. */
  lemma RebootSuccessMeansDeparture(events: seq<Event>, k: nat)
    ensures var log := Run(START, events).log;
            k < |log| && log[k].RebootReturned? && log[k].result.error == NoError ==>
              AcceptedThenLeft(log[..k], log[k].call)
  {
    RunTold(START, events);
  }

  /** No call of reboot() puts more than one reboot request on the wire. */
  lemma OneRebootPerCall(events: seq<Event>, j: nat, k: nat)
    ensures var log := Run(START, events).log;
            j < k < |log| && log[j].RebootAdmitted? && log[k].RebootAdmitted? ==> log[j].call != log[k].call
  {
    RunTold(START, events);
  }

  /** Upload outcomes say what happened. In particular a recorded failure is never reported
      as cancelled, and as completed only if the sender itself completes after failing. */
  lemma UploadOutcomesAreTruthful(events: seq<Event>, k: nat)
    ensures var log := Run(START, events).log;
            k < |log| && log[k].UploadEnded? ==> Truthful(FactsOf(log[..k]), log[k].outcome)
  {
    RunTold(START, events);
    var log := Run(START, events).log;
    if k < |log| && log[k].UploadEnded? { EachEndsTruthfully(log, k); }
  }

  /** The code has one way for a recorded failure not to be the outcome: the sender fails, goes into
      the abort handshake, and then completes after all. */
  lemma FailureCanBeOvertaken(u: UploadPart, failing: Sender, completing: Sender)
    requires u.progress.state == Uploading && !u.cancel
    requires failing.state == SenderFailed && !failing.oddPhase && completing.state == SenderCompleted
    ensures var v := PollSender(u, failing);
            v.progress.error == ProtocolError && v.progress.state == Cancelling
            && PollSender(v, completing).progress.state == Completed
            && PollSender(v, completing).progress.error == NoError
  {
  }

  /** A poll in which only the upload is served. */
  function Serving(start: Start, report: Report<StartReply>, sender: SenderState): Environment {
    Environment(TryLater, Missing, TryLater, Missing, start, report, true, Sender(sender, 0, 0, false))
  }

  const ACCEPTED_START: Report<StartReply> := Done(false, 0, Some(StartReply(5, 4, 2028, 0)))

  const OVERTAKEN: seq<Event> := [
    Connected(true),
    Upload([7], Options(120000, 3000, 10), 0),
    OwnerPoll(1, Serving(Started(1), Missing, Sending)),
    OwnerPoll(2, Serving(TryLater, ACCEPTED_START, Sending)),
    OwnerPoll(3, Serving(TryLater, Missing, SenderFailed)),
    OwnerPoll(4, Serving(TryLater, Missing, SenderCompleted))]

  const OVERTAKEN_LOG: seq<Entry> := [
    UploadQueued(1), StartAdmitted, SenderReported(SenderFailed), FailureRecorded,
    SenderReported(SenderCompleted), UploadEnded(Completed)]

  /** A poll of a client with nothing but an upload does to it what the upload machine does. */
  lemma OnlyUpload(w: World, now: Word, e: Environment)
    requires !w.s.boot.pending && !w.s.reboot.pending && FreshFor(w.s.live, e.uploadStart)
    requires e.bootStart == TryLater && e.rebootStart == TryLater
    ensures var (v, live) := PollUpload(w.s.upload, w.s.live, now, e);
            Next(w, OwnerPoll(now, e)) == w.(s := w.s.(upload := v, live := live),
                                            log := w.log + UploadEntries(w.s.upload, v, now, e.sender))
  {
    hide PollUpload, UploadEntries;
    assert w.log + [] + [] == w.log;
  }

  /** A client with nothing but this upload. */
  function Carrying(progress: Progress, id: nat, live: set<nat>, log: seq<Entry>): World {
    START.(s := INITIAL.(running := true, live := live,
                         upload := UploadPart(false, progress, [7], Options(120000, 3000, 10), 0, id)),
           log := log)
  }

  const SENDING: World := Carrying(Progress(Uploading, NoError, 0, 1, 0, 5), 0, {}, OVERTAKEN_LOG[..2])

  lemma UploadBegins()
    ensures Next(Next(START, OVERTAKEN[0]), OVERTAKEN[1])
         == Carrying(Progress(Queued, NoError, 0, 1, 0, 0), 0, {}, OVERTAKEN_LOG[..1])
  {
  }

  lemma StartIsSent()
    ensures Next(Carrying(Progress(Queued, NoError, 0, 1, 0, 0), 0, {}, OVERTAKEN_LOG[..1]), OVERTAKEN[2])
         == Carrying(Progress(Starting, NoError, 0, 1, 0, 0), 1, {1}, OVERTAKEN_LOG[..2])
  {
    OnlyUpload(Carrying(Progress(Queued, NoError, 0, 1, 0, 0), 0, {}, OVERTAKEN_LOG[..1]), 1, OVERTAKEN[2].environment);
    hide Next;
  }

  lemma StartIsGranted()
    ensures Next(Carrying(Progress(Starting, NoError, 0, 1, 0, 0), 1, {1}, OVERTAKEN_LOG[..2]), OVERTAKEN[3]) == SENDING
  {
    OnlyUpload(Carrying(Progress(Starting, NoError, 0, 1, 0, 0), 1, {1}, OVERTAKEN_LOG[..2]), 2, OVERTAKEN[3].environment);
    GrantIsUsable();
    hide Next, Usable;
    assert OVERTAKEN_LOG[..2] + [] == OVERTAKEN_LOG[..2];
  }

  lemma GrantIsUsable()
    ensures Usable(ACCEPTED_START.response.value)
  {
    assert PowerOfTwo(4) by { assert PowerOfTwo(2); }
  }

  lemma FailsThenCompletes()
    ensures Next(Next(SENDING, OVERTAKEN[4]), OVERTAKEN[5]).log == OVERTAKEN_LOG
  {
    var v := Next(SENDING, OVERTAKEN[4]);
    OnlyUpload(SENDING, 3, OVERTAKEN[4].environment);
    assert v == Carrying(Progress(Cancelling, ProtocolError, 0, 1, 0, 5), 0, {}, OVERTAKEN_LOG[..4]);
    OnlyUpload(v, 4, OVERTAKEN[5].environment);
    hide Next;
  }

  /** A whole run in which it happens: the failure is recorded and the upload is reported completed. */
  lemma FailureOvertakenInARun()
    ensures Run(START, OVERTAKEN).log == OVERTAKEN_LOG
    ensures FactsOf(OVERTAKEN_LOG[..5]).failed && OVERTAKEN_LOG[5] == UploadEnded(Completed)
  {
    RunSix(START, OVERTAKEN);
    hide Next, Run, FactsOf;
    UploadBegins();
    StartIsSent();
    StartIsGranted();
    FailsThenCompletes();
    FailureSeen();
  }

  lemma RunSix(w: World, events: seq<Event>)
    requires |events| == 6
    ensures Run(w, events)
         == Next(Next(Next(Next(Next(Next(w, events[0]), events[1]), events[2]), events[3]), events[4]), events[5])
  {
    hide Next;
    RunTwo(w, events);
    RunTwo(Next(Next(w, events[0]), events[1]), events[2..]);
    RunTwo(Next(Next(Next(Next(w, events[0]), events[1]), events[2]), events[3]), events[2..][2..]);
  }

  lemma RunTwo(w: World, events: seq<Event>)
    requires |events| >= 2
    ensures Run(w, events) == Run(Next(Next(w, events[0]), events[1]), events[2..])
  {
    assert events[1..][1..] == events[2..];
  }

  lemma FailureSeen()
    ensures FactsOf(OVERTAKEN_LOG[..5]).failed
  {
    var log := OVERTAKEN_LOG;
    assert log[..5][..4] == log[..4] && log[..4][..3] == log[..3];
    assert FactsOf(log[..4]) == Observe(FactsOf(log[..3]), FailureRecorded);
    assert FactsOf(log[..5]) == Observe(FactsOf(log[..4]), SenderReported(SenderCompleted));
  }

  /** Short of that, a recorded failure is what the upload ends with. */
  lemma FailureStandsUnlessCompleted(events: seq<Event>, k: nat)
    ensures var log := Run(START, events).log;
            k < |log| && log[k].UploadEnded? && FactsOf(log[..k]).failed ==>
              (log[k].outcome == Failed <==> !FactsOf(log[..k]).completed)
  {
    UploadOutcomesAreTruthful(events, k);
  }
}
