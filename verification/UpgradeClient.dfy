/** The upgrade client object. Every method is one critical section and is proved to do what
    the functions of UpgradeModel do to a state; the source's fields are grouped by machine. */
module UpgradeClientObject {
  import opened Clock32
  import opened UpgradeModel
  import opened FirmwareUpdate
  import opened Wrappers

  class UpgradeClient {
    var running: bool
    var verifying: bool
    var connected: bool
    var peerSession: nat
    var upload: UploadPart
    var boot: BootPart
    var reboot: RebootPart
    var live: set<nat>  // the RPC runtime's table

    ghost function Abs(): State
      reads this
    {
      State(running, verifying, connected, peerSession, upload, boot, reboot, live)
    }

    constructor ()
      ensures Abs() == INITIAL
    {
      running, verifying, connected, peerSession, live := false, false, true, 0, {};
      upload := UploadPart(false, NO_PROGRESS, [], Options(120000, 3000, 10), 0, 0);
      boot := BootPart(false, false, 0, 0, 0, BootFailure(NoError));
      reboot := RebootPart(false, false, 0, 0, 0, TryBoot, NO_REBOOT);
    }

    // Callers

    method Verify() returns (error: Error)
      modifies this
      ensures (Abs(), error) == BeginVerification(old(Abs()))
    {
      if !running { return NotConnected; }
      if Active(upload.progress) || reboot.pending || verifying { return Busy; }
      verifying := true;
      error := NoError;
    }

    method EndVerify()
      modifies this
      ensures Abs() == EndVerification(old(Abs()))
    {
      verifying := false;
    }

    method SubmitUpload(image: seq<int>, options: Options, now: Word) returns (error: Error)
      modifies this
      ensures (Abs(), error) == StartUpload(old(Abs()), image, options, now)
    {
      if image == [] || options.timeout <= 0 || options.timeout >= HALF || options.statusTimeout == 0
        || options.statusTimeout >= HALF || options.busyRetry == 0 || options.busyRetry >= HALF {
        return InvalidArgument;
      }
      if !running { return NotConnected; }
      if Active(upload.progress) || reboot.pending || verifying { return Busy; }
      upload := upload.(image := image);
      upload := upload.(options := options, since := now, cancel := false);
      upload := upload.(progress := NO_PROGRESS.(state := Queued, total := |image|));
      error := NoError;
    }

    method RequestBoot(timeout: int, now: Word) returns (error: Error)
      modifies this
      ensures (Abs(), error) == EnterBoot(old(Abs()), timeout, now)
    {
      if timeout <= 0 || timeout >= HALF { return InvalidArgument; }
      if !running { return NotConnected; }
      if boot.pending { return Busy; }
      boot := boot.(pending := true, done := false);
      boot := boot.(since := now, timeout := timeout);
      error := NoError;
    }

    method RequestReboot(mode: RebootMode, timeout: int, verification: bool, now: Word) returns (error: Error)
      modifies this
      ensures (Abs(), error) == EnterReboot(old(Abs()), mode, timeout, verification, now)
    {
      if timeout <= 0 || timeout >= HALF { return InvalidArgument; }
      if !running { return NotConnected; }
      if Active(upload.progress) || reboot.pending || (verifying && !verification) { return Busy; }
      reboot := reboot.(result := NO_REBOOT);
      reboot := reboot.(pending := true, done := false, mode := mode);
      reboot := reboot.(since := now, timeout := timeout);
      error := NoError;
    }

    method RequestCancel()
      modifies this
      ensures Abs() == Cancel(old(Abs()))
    {
      if Active(upload.progress) { upload := upload.(cancel := true); }
    }

    // The owner

    /** Cancel and release a call, if the runtime still knows it. */
    method ReleaseCall(id: nat)
      modifies this`live
      ensures live == old(live) - {id}
    {
      if id in live { live := live - {id}; }
    }

    method FinishUpload(error: Error)
      modifies this`upload
      ensures upload == Finish(old(upload), error)
    {
      upload := upload.(progress := upload.progress.(error := error));
      upload := upload.(progress := upload.progress.(
        state := if error == NoError then Completed else if error == Cancelled then Aborted else Failed));
      upload := upload.(image := []);
    }

    method ServiceBoot(now: Word, start: Start, report: Report<BootStatus>)
      modifies this`boot, this`live
      ensures (boot, live) == PollBoot(old(boot), old(live), now, start, report)
    {
      if !boot.pending { return; }
      var result := BootFailure(ProtocolError);
      if Elapsed(now, boot.since) >= boot.timeout {
        ReleaseCall(boot.id);
        result := BootFailure(Timeout);
      } else if boot.id == 0 {
        match start
        case Started(id) =>
          boot := boot.(id := id);
          live := live + {id};
          return;
        case TryLater => return;
        case Unstartable => result := BootFailure(TransportError);
      } else {
        match report {
          case Missing =>
          case Working => return;
          case Done(timedOut, status, response) =>
            result := result.(deviceStatus := status);
            if timedOut {
              result := result.(error := Timeout);
            } else if status != 0 {
              result := result.(error := DeviceRejected);
            } else if response.Some? {
              result := response.value.(error := NoError, deviceStatus := 0);
            }
        }
        ReleaseCall(boot.id);
      }
      boot := boot.(result := result, id := 0, pending := false, done := true);
    }

    method ServiceReboot(now: Word, start: Start, report: Report<RebootMode>)
      modifies this`reboot, this`live
      ensures (reboot, live) == PollReboot(old(reboot), old(live), now, start, report)
    {
      if !reboot.pending { return; }
      var result := NO_REBOOT.(error := ProtocolError);
      if Elapsed(now, reboot.since) >= reboot.timeout {
        ReleaseCall(reboot.id);
        result := reboot.result.(error := Timeout);
      } else if reboot.result.accepted {
        return;
      } else if reboot.id == 0 {
        match start
        case Started(id) =>
          reboot := reboot.(id := id);
          live := live + {id};
          return;
        case TryLater => return;
        case Unstartable => result := NO_REBOOT.(error := TransportError);
      } else {
        match report {
          case Missing =>
          case Working => return;
          case Done(timedOut, status, response) =>
            result := result.(deviceStatus := status);
            if timedOut {
              result := result.(error := Timeout);
            } else if status != 0 {
              result := result.(error := DeviceRejected);
            } else if response == Some(reboot.mode) {
              result := result.(error := NoError, accepted := true);
            }
        }
        ReleaseCall(reboot.id);
        if result.accepted {
          reboot := reboot.(result := result, id := 0);
          return;
        }
      }
      reboot := reboot.(result := result, id := 0, pending := false, done := true);
    }

    /** The device answered StartUpgrade; its call has been released. */
    method StartArrived(timedOut: bool, status: int, response: Option<StartReply>, senderStarts: bool)
      modifies this`upload
      ensures upload == StartAnswered(old(upload), timedOut, status, response, senderStarts)
    {
      upload := upload.(id := 0, progress := upload.progress.(deviceStatus := status));
      if status != 0 { FinishUpload(DeviceRejected); return; }
      if response.None? || !Usable(response.value) {
        FinishUpload(if timedOut then Timeout else ProtocolError);
        return;
      }
      if !senderStarts { FinishUpload(ProtocolError); return; }
      upload := upload.(progress := upload.progress.(transferId := response.value.transferId));
      upload := upload.(progress := upload.progress.(state := Uploading));
    }

    method ServiceStart(start: Start, report: Report<StartReply>, senderStarts: bool)
      modifies this`upload, this`live
      ensures (upload, live) == PollStart(old(upload), old(live), start, report, senderStarts)
    {
      if upload.id == 0 {
        match start
        case Started(id) =>
          upload := upload.(id := id, progress := upload.progress.(state := Starting));
          live := live + {id};
        case TryLater =>
        case Unstartable => FinishUpload(TransportError);
      } else {
        match report
        case Missing =>
          FinishUpload(ProtocolError);
          ReleaseCall(upload.id);
          upload := upload.(id := 0);
        case Working =>
        case Done(timedOut, status, response) =>
          ReleaseCall(upload.id);
          StartArrived(timedOut, status, response, senderStarts);
      }
    }

    method ServiceSender(sender: Sender)
      modifies this`upload
      ensures upload == PollSender(old(upload), sender)
    {
      if upload.cancel && upload.progress.state != Cancelling {
        upload := upload.(progress := upload.progress.(state := Cancelling));
      }
      upload := upload.(progress := upload.progress.(acknowledged := sender.nextOffset));
      if sender.state == SenderCompleted { FinishUpload(NoError); return; }
      if sender.state == SenderAborted {
        FinishUpload(if upload.progress.error == NoError then Cancelled else upload.progress.error);
        return;
      }
      if sender.state == SenderFailed {
        if upload.progress.state == Cancelling { FinishUpload(TransportError); return; }
        upload := upload.(progress := upload.progress.(error := ProtocolError, deviceStatus := sender.status));
        upload := upload.(progress := upload.progress.(state := Cancelling));
      }
      if sender.oddPhase { FinishUpload(ProtocolError); }
    }

    method ServiceUpload(now: Word, e: Environment)
      modifies this`upload, this`live
      ensures (upload, live) == PollUpload(old(upload), old(live), now, e)
    {
      if !Active(upload.progress) { return; }
      if Elapsed(now, upload.since) >= upload.options.timeout {
        ReleaseCall(upload.id);
        FinishUpload(Timeout);
        upload := upload.(id := 0);
        return;
      }
      if upload.cancel && upload.progress.state == Queued { FinishUpload(Cancelled); return; }
      if upload.progress.state == Queued || upload.progress.state == Starting {
        ServiceStart(e.uploadStart, e.uploadReport, e.senderStarts);
        return;
      }
      ServiceSender(e.sender);
    }

    method Service(now: Word, e: Environment)
      modifies this`boot, this`reboot, this`upload, this`live
      ensures Abs() == Poll(old(Abs()), now, e)
    {
      ServiceBoot(now, e.bootStart, e.bootReport);
      ServiceReboot(now, e.rebootStart, e.rebootReport);
      ServiceUpload(now, e);
    }

    method CollectReboot(now: Word, report: Report<RebootMode>)
      modifies this`reboot, this`live
      ensures (reboot, live) == Collect(old(reboot), old(live), now, report)
    {
      if reboot.pending && reboot.id != 0 { ServiceReboot(now, TryLater, report); }
    }

    method AbandonUpload()
      modifies this`upload
      ensures upload == LoseUpload(old(upload))
    {
      if Active(upload.progress) { FinishUpload(TransportError); }
      upload := upload.(id := 0);
    }

    method AbandonBoot()
      modifies this`boot
      ensures boot == LoseBoot(old(boot))
    {
      if boot.pending { boot := boot.(result := BootFailure(TransportError), done := true, pending := false); }
      boot := boot.(id := 0);
    }

    method AbandonReboot(departed: bool)
      modifies this`reboot
      ensures reboot == LoseReboot(old(reboot), departed)
    {
      if reboot.pending {
        var result := reboot.result.(departed := departed);
        result := result.(error := if departed && result.accepted then NoError else TransportError);
        reboot := reboot.(result := result, done := true, pending := false);
      }
      reboot := reboot.(id := 0);
    }

    method ReleaseAll()
      modifies this`live
      ensures live == old(live) - {boot.id, upload.id, reboot.id}
    {
      ReleaseCall(boot.id);
      ReleaseCall(upload.id);
      ReleaseCall(reboot.id);
    }

    method AbandonAll(departed: bool)
      modifies this`boot, this`reboot, this`upload, this`live
      ensures Abs() == Abandon(old(Abs()), departed)
    {
      ReleaseAll();
      AbandonUpload();
      AbandonBoot();
      AbandonReboot(departed);
    }

    method Disconnected(departed: bool, now: Word, report: Report<RebootMode>)
      modifies this`boot, this`reboot, this`upload, this`live
      ensures Abs() == Disconnect(old(Abs()), departed, now, report)
    {
      CollectReboot(now, report);
      AbandonAll(departed);
    }

    method OnTransportState(up: bool, now: Word, report: Report<RebootMode>)
      modifies this
      ensures Abs() == TransportState(old(Abs()), up, now, report)
    {
      var departed := connected && !up;
      connected := up;
      if departed { Disconnected(true, now, report); }
    }

    /** A new peer session; the very first one is no departure. The source takes the lock
        twice here, and the interleaved model keeps the two sections apart. */
    method OnPeerSession(previous: nat, current: nat, now: Word, report: Report<RebootMode>)
      modifies this
      ensures var s := old(Abs()).(peerSession := current);
              Abs() == if previous != 0 then Disconnect(s, true, now, report) else s
    {
      peerSession := current;
      if previous != 0 { Disconnected(true, now, report); }
    }
  }
}
