# A model of the florid SDK

florid is a host SDK for a robot arm. This project models the parts of it that are state machines or
algorithms of their own, and proves what they promise, in Dafny 4.11:

- **The control endpoint** (`Clock32`, `EndpointModel`, `EndpointInvariant`, `EndpointRuns`, `EndpointTheorems`,
  `EndpointHistory`, `EndpointLease`, `EndpointQueries`, `Endpoint`): a fixed table of eight operation slots, one RPC at a time with
  the link, first-come-first-served starts with busy retries, per-operation deadlines on a wrapping 32-bit clock,
  and a control lease that is renewed by a timer. Each critical section is a function on the shared state; callers,
  the owner's pass, completions and stops are interleaved in any order, one critical section at a time. The class
  `Endpoint` updates the slot array and the lease in place and is proved against the same functions.
- **The firmware upgrade client** (`UpgradeModel`, `UpgradeRuns`, `UpgradeTheorems`, `UpgradeClient`): boot status,
  reboot and upload machines that share one mutex, with cancel, timeout, disconnection and change of peer session.
- **Reboot and verify** (`FirmwareSession`): a polling loop against a device, a link and a scheduler that may do
  anything their contracts allow.
- **The MPC session** (`MpcCubic`, `MpcSampling`, `MpcModel`, `MpcRuns`, `MpcTheorems`, `MpcWorker`, `MpcPlanner`,
  `MpcWait`, `MpcStop`): the cubic Hermite reference and the check that accepts it, the output and planning workers with their
  gates and period grid, and the start and stop protocol over all interleavings.
- **USB URIs** (`UsbUri`), **the latency window** (`Latency`) and **the include closure** (`SourceClosure`).
- What several of them share is in `Wrappers`, `DeviceTypes` and `FirmwareUpdate`.

What the environment does is a parameter everywhere: link answers, sender reports, clock readings, feedback,
mailbox contents, what a device says and when. Assumptions are few and stated where they are used: an
asynchronous start does not call back before it returns; fewer than 2^64 requests are submitted; a peer session,
once left, does not recur, and there is always one after the first; clocks do not go back and sleeping takes as
long as asked; a response is delivered between its request and its result being taken.

Where the code and what is written about it differ, the model follows the code:

- `docs/mpc.md` and the comment at `include/florid/detail/MPCTrajectory.hpp:16-17` say that the extrema of a segment
  are checked exactly. That is so unless a leading coefficient is smaller than 1e-15 without being zero
  (`MpcCubic.WithinIsExact`); `MpcCubic.SmallCoefficientsEscape` gives the segments that escape and
  `MpcCubic.WithinBounds` says by how much at most.
- The state "renewing" does not imply a lease token: a renewal can start after the lease has run out
  (`EndpointLease.RenewingWithoutTokenIsReached`). Commands are still refused then. There is a token exactly while
  the latest grant stands (`EndpointHistory.TokenExactlyUnderAGrant`).
- A pass looks at the expiry only while a renewal waits or is under way, so a held lease whose renewal comes late is
  used past its grant (`EndpointLease.OverdueTokenIsUsed`); `EndpointLease.UsableTokenAfterPass` says exactly when.
- An upload that has recorded a failure ends as completed if its sender completes after all
  (`UpgradeTheorems.FailureOvertakenInARun`); short of that the failure stands
  (`UpgradeTheorems.FailureStandsUnlessCompleted`).
- Port paths with a dot at the end or zeros in front of a component are accepted and printed back differently
  (`UsbUri.TrailingDotAccepted`, `UsbUri.LeadingZeroAccepted`); all others are printed back as they were
  (`UsbUri.PrintedWhenCanonical`).

`dafny verify dfyconfig.toml` checks the project.

## Model

| member | source | states |
|---|---|---|
| `Clock32.QueueRemainingRefines` | src/FciWirelinkEndpoint.cpp:17-24 | for ages within 2^31 the wrapped remainder is the true one: deadline minus clock, at least 0, at most the timeout |
| `Clock32.QueueRemainingLater` | src/FciWirelinkEndpoint.cpp:17-24 | a positive remainder is still positive after any shorter sleep, for any pair of readings on the wrapping clock |
| `Clock32.UntilLater` | src/FciWirelinkEndpoint.cpp:1298-1303 | sleeping for less than the time until an instant leaves exactly the difference, across the wrap |
| `EndpointModel.OldestQueued` | src/FciWirelinkEndpoint.cpp:1901-1913 | the selected queued slot has the smallest id; none is selected exactly when no queued id lies below the largest 64-bit value |
| `EndpointModel.FirstFree` | src/FciWirelinkEndpoint.cpp:1915-1926 | the slot found is free and in range, and none is found exactly when every slot in range is used |
| `EndpointModel.FindSlot` | src/FciWirelinkEndpoint.cpp:1890-1899 | the slot found carries the id, and none is found exactly when no used slot does |
| `EndpointInvariant.SubmitInv` | src/FciWirelinkEndpoint.cpp:1847-1888 | a submission keeps the table invariant and every finished result; a refusal changes nothing; an acceptance hands out the next id |
| `EndpointInvariant.TakeInv` | src/FciWirelinkEndpoint.cpp:678-775 | a take keeps the table invariant and every other result |
| `EndpointInvariant.FinalizeInv` | src/FciWirelinkEndpoint.cpp:1407-1584 | giving an operation its outcome keeps the invariant and the other results, and the operation is live no more |
| `EndpointInvariant.FinalLeaseOk` | src/FciWirelinkEndpoint.cpp:1539-1577 | after any outcome a held lease has a non-zero token, a grant in [1, 2^31) and a renew time no later than its expiry |
| `EndpointInvariant.RenewBeforeExpiry` | src/FciWirelinkEndpoint.cpp:1539-1577 | the renewal falls due exactly the later half of the grant before the expiry, on the wrapping clock |
| `EndpointInvariant.PickInv` | src/FciWirelinkEndpoint.cpp:1586-1606 | marking the oldest queued operation as the one with the link keeps the invariant |
| `EndpointInvariant.AdmitInv` | src/FciWirelinkEndpoint.cpp:1790-1797 | an admission makes the active operation the one RPC in flight and keeps the invariant |
| `EndpointInvariant.RequeueInv` | src/FciWirelinkEndpoint.cpp:1798-1801 | a busy link puts the operation back in the queue with its id, keeps the invariant and frees the link |
| `EndpointInvariant.StopInv` | src/FciWirelinkEndpoint.cpp:1832-1845 | a stop leaves nothing queued, leaves the active slot alone and rewrites no finished result |
| `EndpointRuns.NextInv` | src/FciWirelinkEndpoint.cpp:1305-1351 | one critical section of any thread, in any order, keeps the invariant, rewrites no finished result and brings to life no id but the one just handed out |
| `EndpointRuns.OwnerFrame` | src/FciWirelinkEndpoint.cpp:1586-1606 | what other threads do in the middle of an owner pass does not disturb the slot the pass is working on |
| `EndpointTheorems.StandingIsLatestGrant` | src/FciWirelinkEndpoint.cpp:1539-1577 | the token the log says is in force was granted by a successful acquire or renew with nothing that ends a grant after it |
| `EndpointTheorems.LatestGrantStands` | src/FciWirelinkEndpoint.cpp:1539-1577 | and such a grant is the token in force |
| `EndpointTheorems.NextTold` | src/FciWirelinkEndpoint.cpp:1325-1344 | at every step the lease token in the shared state is the one the log says is in force |
| `EndpointTheorems.NextOrder` | src/FciWirelinkEndpoint.cpp:1901-1913 | at every step whatever waits is younger than whatever was admitted, across busy retries |
| `EndpointHistory.OneOperationInFlight` | src/FciWirelinkEndpoint.cpp:1586-1606 | in every run a slot is with the link exactly when it is the active one, so at most one is, and RPCs started minus released is one exactly while it is admitted |
| `EndpointHistory.CommandsUseTheLatestGrant` | src/FciWirelinkEndpoint.cpp:1275-1289 | in every run a command carries a token only if the latest acquire or renew granted it and since then none failed, no release finished, the lease did not run out, no upgrade took over and nothing stopped the endpoint |
| `EndpointHistory.StandingGrantIsUsable` | src/FciWirelinkEndpoint.cpp:1275-1289 | conversely a grant that still stands is usable exactly when no upgrade is on, the endpoint runs and the lease is held or renewing |
| `EndpointHistory.HeldLeaseIsSound` | src/FciWirelinkEndpoint.cpp:1539-1577 | in every run a held lease has a non-zero token, a grant in [1, 2^31) and is renewed no later than it expires |
| `EndpointHistory.AdmissionsInSubmissionOrder` | src/FciWirelinkEndpoint.cpp:1586-1615 | over a whole run operations reach the link in strictly increasing id order, whatever was answered busy |
| `EndpointHistory.AdmissionsAreFunded` | src/FciWirelinkEndpoint.cpp:1609-1615 | every admission gives the link what is left of that operation's own timeout, which is positive |
| `EndpointHistory.BudgetEndsByDeadline` | src/FciWirelinkEndpoint.cpp:17-24 | in true time the pass clock plus the budget is submission time plus the original timeout; when the pass read its clock before the submission the budget is the whole timeout |
| `EndpointHistory.SweepIsComplete` | src/FciWirelinkEndpoint.cpp:1309-1324 | after the expiry sweep no operation queued when the pass began has run out of time, whatever other threads did meanwhile |
| `EndpointHistory.ConsumedAtMostOnce` | src/FciWirelinkEndpoint.cpp:678-775 | over a whole run an accepted id is consumed by at most one take |
| `EndpointHistory.FinishedForGood` | src/FciWirelinkEndpoint.cpp:1527-1582 | an operation that has its outcome never becomes live again |
| `EndpointHistory.GoneForGood` | src/FciWirelinkEndpoint.cpp:678-690 | a consumed id never reappears |
| `EndpointHistory.ResultsStand` | src/FciWirelinkEndpoint.cpp:1527-1582 | a finished slot stays as it is until it is consumed: no expiry, stop, busy retry or late completion rewrites it |
| `EndpointHistory.TokenExactlyUnderAGrant` | src/FciWirelinkEndpoint.cpp:1539-1577 | in every run the lease has a token if and only if the latest acquire or renew granted one and nothing has ended that grant since |
| `EndpointLease.PassKeepsGrant` | src/FciWirelinkEndpoint.cpp:1305-1351 | an owner pass never grants a token or moves an expiry, and leaves no token that was renewing past its expiry when the pass began |
| `EndpointLease.UsableTokenAfterPass` | src/FciWirelinkEndpoint.cpp:1326-1336 | a token usable after an owner pass is past its grant exactly if it already was when the pass began and the lease was neither waiting to be renewed nor renewing |
| `EndpointLease.RenewingTokenIsInItsGrant` | src/FciWirelinkEndpoint.cpp:1326-1336 | so when a pass begins with a renewal queued or under way, it leaves no usable token past its grant |
| `EndpointLease.OverdueTokenIsUsed` | src/FciWirelinkEndpoint.cpp:1326-1344 | a run from the initial state after which, at 20 ms, commands still carry a token whose grant ended at 14 ms |
| `EndpointLease.RenewingWithoutTokenIsReached` | src/FciWirelinkEndpoint.cpp:1598-1602 | a run from the initial state that ends in renewing without a token: granted for 4 ms, renewal answered busy past the expiry |
| `EndpointQueries.TakeConsumes` | src/FciWirelinkEndpoint.cpp:678-775 | a take of a finished operation of the right kind empties exactly its slot, reports its status, and a typed take is ok exactly when it writes that id's checked payload |
| `EndpointQueries.TakeRefuses` | src/FciWirelinkEndpoint.cpp:678-775 | every other take changes nothing and writes nothing; it says busy exactly when a live operation of that id and kind exists |
| `EndpointQueries.ReservedSlot` | src/FciWirelinkEndpoint.cpp:1915-1926 | public requests never get the last slot, and a renewal misses it only if another internal acquire is in it |
| `EndpointQueries.DeadlineIsSound` | src/FciWirelinkEndpoint.cpp:1188-1209 | sleeping for less than the hint reaches no instant at which a queued operation has expired, a held lease is due or a renewing one is overdue, on the wrapping clock |
| `EndpointQueries.DeadlineIsNotEager` | src/FciWirelinkEndpoint.cpp:1188-1209 | the hint is zero exactly when one of those is already so |
| `EndpointQueries.RenewingWithoutToken` | src/FciWirelinkEndpoint.cpp:1598-1602 | from any sound state, a renewal picked after the lease ran out leaves the state renewing with token zero, and then no command can be sent |
| `EndpointObject.Endpoint.constructor` | src/FciWirelinkEndpoint.cpp:281-334 | a new endpoint is the initial state of the model |
| `EndpointObject.Endpoint.FindSlotOf` | src/FciWirelinkEndpoint.cpp:1890-1899 | the scan finds what the specification names |
| `EndpointObject.Endpoint.FindQueuedSlot` | src/FciWirelinkEndpoint.cpp:1901-1913 | the scan finds the oldest queued slot |
| `EndpointObject.Endpoint.FreeSlot` | src/FciWirelinkEndpoint.cpp:1915-1926 | the scan finds the slot a submission gets, the reserved one included |
| `EndpointObject.Endpoint.SubmitOperation` | src/FciWirelinkEndpoint.cpp:1847-1888 | the slot array, ids and lease after a submission, and its answer, are those of the model's step |
| `EndpointObject.Endpoint.Occupy` | src/FciWirelinkEndpoint.cpp:1861-1874 | the free slot is filled in and the next id handed out; no other slot changes |
| `EndpointObject.Endpoint.QueueLease` | src/FciWirelinkEndpoint.cpp:1875-1885 | the lease while an operation on it waits |
| `EndpointObject.Endpoint.CheckBeforeAcquire` | src/FciWirelinkEndpoint.cpp:419-434 | the first of acquiring's two sections: the token to renew, or a refusal while a lease operation is under way |
| `EndpointObject.Endpoint.AcquireControlLease` | src/FciWirelinkEndpoint.cpp:410-442 | bad timeouts and busy leases change nothing; otherwise an acquire is submitted that renews the held token |
| `EndpointObject.Endpoint.ReleaseControlLease` | src/FciWirelinkEndpoint.cpp:444-465 | bad timeouts and unusable leases change nothing; otherwise a release of the current token is submitted |
| `EndpointObject.Endpoint.TakeOperation` | src/FciWirelinkEndpoint.cpp:678-775 | the array and the answer after a take are those of the model's step |
| `EndpointObject.Endpoint.CommandLeaseToken` | src/FciWirelinkEndpoint.cpp:1275-1289 | the token or refusal a command gets |
| `EndpointObject.Endpoint.ApplicationDeadline` | src/FciWirelinkEndpoint.cpp:1188-1209 | the loop over the slots computes the deadline hint whose soundness is proved |
| `EndpointObject.Endpoint.FinalizeLease` | src/FciWirelinkEndpoint.cpp:1539-1577 | the lease fields after an outcome, updated in place, are those of the model's step |
| `EndpointObject.Endpoint.FinalizeOperation` | src/FciWirelinkEndpoint.cpp:1407-1584 | slot, lease and RPC count after an outcome are those of the model's step |
| `EndpointObject.Endpoint.Sweep` | src/FciWirelinkEndpoint.cpp:1309-1324 | the expiry loop over the array does what the owner of the interleaved model does alone |
| `EndpointObject.Endpoint.CheckLeaseExpiry` | src/FciWirelinkEndpoint.cpp:1326-1336 | an overdue lease loses its token |
| `EndpointObject.Endpoint.ScheduleRenewal` | src/FciWirelinkEndpoint.cpp:1811-1830 | a due lease submits an internal renewal of its token, else nothing changes |
| `EndpointObject.Endpoint.PickNext` | src/FciWirelinkEndpoint.cpp:1586-1606 | the oldest queued operation becomes the active one |
| `EndpointObject.Endpoint.Offer` | src/FciWirelinkEndpoint.cpp:1607-1809 | the picked operation is expired, with the link, queued again or failed, as the link answers |
| `EndpointObject.Endpoint.StartNext` | src/FciWirelinkEndpoint.cpp:1586-1809 | picking and offering end in the state the owner of the interleaved model reaches alone |
| `EndpointObject.Endpoint.RenewOrDrop` | src/FciWirelinkEndpoint.cpp:1326-1344 | the lease part of a pass does what the owner of the interleaved model does alone |
| `EndpointObject.Endpoint.OwnerPass` | src/FciWirelinkEndpoint.cpp:1305-1351 | one owner pass on the object, with a clock reading of its own for every section, ends in the state the interleaved model's owner reaches when no other thread runs |
| `EndpointObject.Endpoint.StopOwner` | src/FciWirelinkEndpoint.cpp:1832-1845 | the loop that cancels what is queued ends in the state of the model's stop |
| `UpgradeRuns.PollBootInv` | src/FciUpgradeClient.cpp:187-225 | one poll of the boot machine keeps the ids of the three machines equal to the runtime's live calls |
| `UpgradeRuns.PollRebootInv` | src/FciUpgradeClient.cpp:227-264 | same for the reboot machine |
| `UpgradeRuns.PollUploadInv` | src/FciUpgradeClient.cpp:320-356 | same for the upload machine; a poll never starts an upload of its own |
| `UpgradeRuns.DisconnectInv` | src/FciUpgradeClient.cpp:95-112 | losing the peer releases every call and leaves nothing pending or active |
| `UpgradeRuns.NextInv` | src/FciUpgradeClient.cpp:72-185 | every critical section of every thread keeps the shared invariant |
| `UpgradeTheorems.SharedStateAlwaysSound` | src/FciUpgradeClient.cpp:80-93 | in every run uploads exclude reboots and verification, ids mark exactly the phases that have a call, the live calls are exactly those ids, and an active upload holds an image of the announced length |
| `UpgradeTheorems.BootStatusIsCurrent` | src/FciUpgradeClient.cpp:114-128 | whatever bootStatus() returns but its own timeout was read for that very call |
| `UpgradeTheorems.BootStatusIsReadDuringItsCall` | src/FciUpgradeClient.cpp:114-128 | and not before that call began: no answer to a call is there while the call is still to come |
| `UpgradeTheorems.RebootSuccessMeansDeparture` | src/FciUpgradeClient.cpp:147-168 | reboot() reports no error only if this call's own request was accepted and the device was then seen to depart |
| `UpgradeTheorems.OneRebootPerCall` | src/FciUpgradeClient.cpp:227-245 | no call of reboot() puts more than one request on the wire |
| `UpgradeTheorems.UploadOutcomesAreTruthful` | src/FciUpgradeClient.cpp:320-356 | completed exactly if the sender completed; cancelled only if no upgrade was started or the sender aborted, and never after a recorded failure |
| `UpgradeTheorems.FailureStandsUnlessCompleted` | src/FciUpgradeClient.cpp:341-356 | a recorded failure is what the upload ends with, exactly unless the sender completes afterwards |
| `UpgradeTheorems.FailureCanBeOvertaken` | src/FciUpgradeClient.cpp:346-356 | the exception, from any upload being sent: the sender fails, is told to abort, and then completes |
| `UpgradeTheorems.FailureOvertakenInARun` | src/FciUpgradeClient.cpp:346-356 | a whole run from the initial state that records a failure and ends as completed |
| `UpgradeTheorems.BootNext` | src/FciUpgradeClient.cpp:187-225 | every step keeps the boot caller matched to its own request |
| `UpgradeTheorems.RebootNext` | src/FciUpgradeClient.cpp:227-264 | every step keeps the reboot history: admitted once per call, success only after acceptance and departure |
| `UpgradeTheorems.UploadNext` | src/FciUpgradeClient.cpp:266-356 | every step keeps the upload's state in agreement with what the log tells |
| `UpgradeTheorems.DepartureTold` | src/FciUpgradeClient.cpp:95-112 | a departure turns an accepted request into success and nothing else does |
| `UpgradeTheorems.UploadStepFacts` | src/FciUpgradeClient.cpp:266-356 | one poll of the upload machine ends truthfully whatever the sender reports |
| `UpgradeClientObject.UpgradeClient.constructor` | include/florid/detail/FciUpgradeClient.hpp:35-57 | a new client is the model's initial state |
| `UpgradeClientObject.UpgradeClient.Verify` | src/FciUpgradeClient.cpp:80-87 | admission of a verification and the flag after it |
| `UpgradeClientObject.UpgradeClient.EndVerify` | src/FciUpgradeClient.cpp:89-93 | the flag is cleared and nothing else changes |
| `UpgradeClientObject.UpgradeClient.SubmitUpload` | src/FciUpgradeClient.cpp:130-145 | admission of an upload and the fields it sets |
| `UpgradeClientObject.UpgradeClient.RequestBoot` | src/FciUpgradeClient.cpp:114-121 | admission of a boot status request and the fields it sets |
| `UpgradeClientObject.UpgradeClient.RequestReboot` | src/FciUpgradeClient.cpp:147-158 | admission of a reboot, inside or outside a verification |
| `UpgradeClientObject.UpgradeClient.RequestCancel` | src/FciUpgradeClient.cpp:175-178 | only an active upload is marked cancelled |
| `UpgradeClientObject.UpgradeClient.ReleaseCall` | src/FciUpgradeClient.cpp:61-70 | exactly the call named leaves the runtime |
| `UpgradeClientObject.UpgradeClient.FinishUpload` | src/FciUpgradeClient.cpp:180-185 | outcome, error and image after an upload ends |
| `UpgradeClientObject.UpgradeClient.ServiceBoot` | src/FciUpgradeClient.cpp:187-225 | the boot fields and live calls after a poll are those of the model's step |
| `UpgradeClientObject.UpgradeClient.ServiceReboot` | src/FciUpgradeClient.cpp:227-264 | same for the reboot fields |
| `UpgradeClientObject.UpgradeClient.StartArrived` | src/FciUpgradeClient.cpp:281-305 | an upload goes on only with a usable grant from the device |
| `UpgradeClientObject.UpgradeClient.ServiceStart` | src/FciUpgradeClient.cpp:266-305 | same for the start phase of an upload |
| `UpgradeClientObject.UpgradeClient.ServiceSender` | src/FciUpgradeClient.cpp:335-356 | same for the transfer phase |
| `UpgradeClientObject.UpgradeClient.ServiceUpload` | src/FciUpgradeClient.cpp:323-356 | same for the upload as a whole |
| `UpgradeClientObject.UpgradeClient.Service` | src/FciUpgradeClient.cpp:320-356 | one pass over the three machines is the model's poll |
| `UpgradeClientObject.UpgradeClient.CollectReboot` | src/FciUpgradeClient.cpp:95-103 | a response that has arrived is collected before the loss is acted on |
| `UpgradeClientObject.UpgradeClient.AbandonUpload` | src/FciUpgradeClient.cpp:95-112 | an active upload fails, an idle one is left alone |
| `UpgradeClientObject.UpgradeClient.AbandonBoot` | src/FciUpgradeClient.cpp:95-112 | a pending boot request is answered with a failure |
| `UpgradeClientObject.UpgradeClient.AbandonReboot` | src/FciUpgradeClient.cpp:95-112 | a pending reboot is answered: success only if accepted and departed |
| `UpgradeClientObject.UpgradeClient.ReleaseAll` | src/FciUpgradeClient.cpp:61-70 | every call of the three machines leaves the runtime |
| `UpgradeClientObject.UpgradeClient.AbandonAll` | src/FciUpgradeClient.cpp:95-112 | all three machines are told and every call released |
| `UpgradeClientObject.UpgradeClient.Disconnected` | src/FciUpgradeClient.cpp:95-112 | the whole state after a loss is that of the model's step |
| `UpgradeClientObject.UpgradeClient.OnTransportState` | src/FciUpgradeClient.cpp:72-78 | only the edge from connected to not connected counts as a loss |
| `UpgradeClientObject.UpgradeClient.OnPeerSession` | src/FciUpgradeClient.cpp:45-51 | a change of peer session is a departure, the first session is none |
| `FirmwareSession.SessionIsNew` | src/FirmwareUpdateSession.cpp:128-130 | a session that differs from the one checked before the reboot differs from every session up to that check |
| `FirmwareSession.ProvenBy` | src/FirmwareUpdateSession.cpp:149-160 | a conclusion drawn from what one new session said is proven in the sense of the main result |
| `FirmwareSession.OnlyConfirmed` | src/FirmwareUpdateSession.cpp:149-152 | a poll concludes something only from an idle, primary-confirmed boot status |
| `FirmwareSession.AttributedWithin` | src/FirmwareUpdateSession.cpp:73 | an attribution found in the second query holds for the first |
| `FirmwareSession.Session.constructor` | include/florid/detail/FirmwareUpdateSession.hpp:12-23 | a new session has no request outstanding, no reboot and no verification |
| `FirmwareSession.Session.TakeInfo` | src/FciWirelinkEndpoint.cpp:692-728 | taking a result consumes the request exactly when it is not pending any more |
| `FirmwareSession.Session.SubmitInfo` | src/FirmwareUpdateSession.cpp:52-54 | an accepted query is the one request outstanding |
| `FirmwareSession.Session.DrainLeftover` | src/FirmwareUpdateSession.cpp:44-50 | a query left by a caller that gave up is taken before another is made |
| `FirmwareSession.Session.Exchange` | src/FirmwareUpdateSession.cpp:52-60 | at most one query is outstanding afterwards, and an answer was delivered within the exchange |
| `FirmwareSession.Session.QueryInfo` | src/FirmwareUpdateSession.cpp:39-76 | an info returned was said by the device in the session it is tagged with, during the call; at most one more query is made when nothing was known of the device; at most one request is ever outstanding |
| `FirmwareSession.Session.GetInfo` | src/FirmwareUpdateSession.cpp:33-37 | same for the public call, which turns a second caller away |
| `FirmwareSession.Session.OtherCallers` | src/FirmwareUpdateSession.cpp:33-37 | whole queries of other callers, any number of them, keep the session's invariant |
| `FirmwareSession.Session.Sight` | src/FirmwareUpdateSession.cpp:128-130 | an info is reported only if one new session gave it and is still the current one |
| `FirmwareSession.Session.ReadBoot` | src/FirmwareUpdateSession.cpp:146-148 | a boot status is reported only if the session did not change while it was read |
| `FirmwareSession.Session.BootQuery` | src/FciUpgradeClient.cpp:114-128 | a boot status without error was delivered during the call, by the peer heard from at that instant |
| `FirmwareSession.Session.BeginVerification` | src/FciUpgradeClient.cpp:80-87 | the flag is set exactly when the verification is admitted |
| `FirmwareSession.Session.Poll` | src/FirmwareUpdateSession.cpp:127-165 | one look at the device: it ends the wait only with a proven conclusion or a mismatch, and goes on only if nothing it read was decisive |
| `FirmwareSession.Session.AwaitVerdict` | src/FirmwareUpdateSession.cpp:122-167 | polling, with whole queries of other callers before every look, ends by the time that is left; a timeout comes only after the deadline and only if no boot status read in a new session was decisive |
| `FirmwareSession.Session.Verify` | src/FirmwareUpdateSession.cpp:87-168 | the part between setting and clearing the flag: at most one reboot, and none unless the old firmware is compatible, identified and different from the expected version |
| `FirmwareSession.Session.RebootAndWait` | src/FirmwareUpdateSession.cpp:78-168 | target confirmed only if, after at most one reboot request, one session never seen before told the same serial, board and type, a compatible protocol, the expected version and, in that same session, an idle primary-confirmed boot status; previous firmware only for the old version; the flag is cleared on every exit |
| `MpcCubic.WithinIsExact` | include/florid/detail/MPCTrajectory.hpp:41-74 | a segment passes the check exactly if position, velocity and acceleration stay within their limits on all of it, when no coefficient is below the threshold without being zero |
| `MpcCubic.WithinBounds` | include/florid/detail/MPCTrajectory.hpp:41-74 | whatever passes stays within the limits on all of it, but for at most what coefficients below the threshold add, and that is bounded |
| `MpcCubic.SmallCoefficientsEscape` | include/florid/detail/MPCTrajectory.hpp:58-71 | for every coefficient below the threshold, quadratic or cubic, and any ordinary interval and limits, a segment that passes the check and leaves the limits between its ends |
| `MpcCubic.EveryCubicIsHermite` | include/florid/detail/MPCTrajectory.hpp:20-39 | every cubic, so those too, is the segment between some two knots |
| `MpcRuns.SmallCoefficientsEscapeHere` | include/florid/detail/MPCTrajectory.hpp:58-71 | it happens at the session's own interval and at every joint's own limits |
| `MpcCubic.CubicPosition` | include/florid/detail/MPCTrajectory.hpp:61-67 | positions at the ends and at the roots of the derivative bound all positions |
| `MpcCubic.CubicVelocity` | include/florid/detail/MPCTrajectory.hpp:59-60 | velocities at the ends and at the vertex bound all velocities |
| `MpcCubic.AccelerationEverywhere` | include/florid/detail/MPCTrajectory.hpp:56-57 | accelerations at the ends bound all accelerations |
| `MpcCubic.FlatPosition` | include/florid/detail/MPCTrajectory.hpp:68-71 | without a cubic coefficient to speak of, the stationary point and the ends bound all positions up to that coefficient |
| `MpcCubic.FlatVelocity` | include/florid/detail/MPCTrajectory.hpp:54-55 | and the ends bound all velocities up to six times that coefficient |
| `MpcCubic.CriticalPoints` | include/florid/detail/MPCTrajectory.hpp:61-66 | the two values computed with the square root are the roots of the derivative |
| `MpcCubic.BoundedByCandidates` | include/florid/detail/MPCTrajectory.hpp:61-67 | a cubic is monotone between its critical points, so the candidates bound it |
| `MpcCubic.NoCriticalPoints` | include/florid/detail/MPCTrajectory.hpp:61-62 | with a negative discriminant the position is monotone |
| `MpcCubic.SoundPassesTheCheck` | include/florid/detail/MPCTrajectory.hpp:41-74 | a segment within its limits everywhere is never rejected |
| `MpcSampling.SampleBefore` | include/florid/detail/MPCTrajectory.hpp:20-39 | a segment starts at its first knot, in position and velocity |
| `MpcSampling.SampleAfter` | include/florid/detail/MPCTrajectory.hpp:20-39 | and ends at its second |
| `MpcSampling.OnSegment` | include/florid/detail/MPCTrajectory.hpp:83-89 | within its interval a plan is its segment, and at a knot the two segments agree |
| `MpcSampling.PassesThroughKnots` | include/florid/detail/MPCTrajectory.hpp:83-89 | a plan passes through each knot, in position and velocity, at its time |
| `MpcSampling.PlanInLimits` | include/florid/detail/MPCTrajectory.hpp:83-89 | every instant of a checked plan, the clamped ends included, is inside the limits |
| `MpcSampling.PlanMoves` | include/florid/detail/MPCTrajectory.hpp:83-89 | between any two instants a plan covers no more than its segments' speed allows, however many knots lie between |
| `MpcSampling.MeanRate` | include/florid/detail/MPCTrajectory.hpp:77-78 | the average velocity over an interval of a cubic is Simpson's mean of the rate |
| `MpcSampling.CheckedSpeed` | include/florid/detail/MPCTrajectory.hpp:51-60 | a segment that passed the check keeps the speed limit everywhere |
| `MpcSampling.CheckedPlanMoves` | include/florid/detail/MPCTrajectory.hpp:83-89 | a checked plan covers no more than the speed limit allows |
| `MpcSampling.HandoffIsSmooth` | src/MPCSession.cpp:302-317 | a handoff starts at the reference being executed and joins the new plan after one interval, in position and velocity |
| `MpcSampling.BridgedMoves` | src/MPCSession.cpp:264-269 | after a handoff the reference keeps the speed limit across the join |
| `MpcSampling.BridgedInLimits` | src/MPCSession.cpp:264-269 | and stays inside the limits |
| `MpcRuns.SkippedExactly` | src/MPCSession.cpp:235-240 | exactly the grid points up to the end of the work are counted as missed |
| `MpcRuns.NextSlotIsFirst` | src/MPCSession.cpp:365-370 | the next slot is the first grid point after the end of the work |
| `MpcRuns.AdoptKeepsReference` | src/MPCSession.cpp:302-317 | a handoff does not move the reference at the instant it happens; the first one starts where the joints are |
| `MpcRuns.AdoptedIsOk` | src/MPCSession.cpp:293-319 | an adopted plan and its bridge passed the check and join |
| `MpcRuns.ReferenceInLimits` | src/MPCSession.cpp:264-269 | the executed reference is inside the joint limits at every instant |
| `MpcRuns.ReferenceMoves` | src/MPCSession.cpp:264-269 | the executed reference keeps the speed limit between any two instants |
| `MpcRuns.CeilingCovers` | src/MPCSession.cpp:330-335 | the speed ceiling is positive, within the limit, and covers the reference's speed and the catch-up of the feedback as far as the limit allows |
| `MpcRuns.CeilingCoversTheLastMove` | src/MPCSession.cpp:332-335 | and the move since the last command |
| `MpcRuns.SentExactlyWhenReady` | src/MPCSession.cpp:270-345 | a command goes out exactly when feedback, target, plan, tracking and lateness are all as required |
| `MpcRuns.SentIsSafe` | src/MPCSession.cpp:270-345 | a command that goes out is safe: position, tracking, feedback, plan, target, lateness, ceiling and current |
| `MpcTheorems.EveryCommandIsSafe` | src/MPCSession.cpp:270-374 | over a whole run, whatever plans, feedback and delays occur, every command sent is safe |
| `MpcTheorems.FirstCommandHoldsPosition` | src/MPCSession.cpp:304-310 | the first command holds every joint where it was measured |
| `MpcTheorems.CommandsNeverJump` | src/MPCSession.cpp:264-345 | between any two commands of a run no joint is asked to move further than its speed limit allows, across any number of plan switches |
| `MpcTheorems.GridIsConserved` | src/MPCSession.cpp:359-370 | the next slot is start plus period times completed and missed periods |
| `MpcTheorems.NextSlotIsAhead` | src/MPCSession.cpp:359-370 | after a period the next slot lies in (done, done + period], and what was missed fits into the lateness limit |
| `MpcTheorems.OneCommandASlot` | src/MPCSession.cpp:247-374 | in every run no command goes out before its slot has come, and no slot gets two: the slots of successive commands are at least a period apart |
| `MpcTheorems.PeriodsKeepToTheirSlots` | src/MPCSession.cpp:359-372 | in every run, waits included, no period starts before its slot, and after a period the next slot lies in (done, done + period] |
| `MpcTheorems.RunIsOk` | src/MPCSession.cpp:247-374 | the invariant of a run of the output worker |
| `MpcTheorems.StillLive` | src/MPCSession.cpp:317-347 | a period that goes on keeps it |
| `MpcWorker.OutputWorker.constructor` | src/MPCSession.cpp:258-263 | a new worker is the model's initial state |
| `MpcWorker.OutputWorker.WithinLimits` | include/florid/detail/MPCTrajectory.hpp:41-74 | the computed verdict is that of the check with the true square root |
| `MpcWorker.OutputWorker.CheckKnots` | src/MPCSession.cpp:297-301 | the loops over segments and joints accept exactly the plans all of whose segments pass |
| `MpcWorker.OutputWorker.CheckCubics` | include/florid/detail/MPCTrajectory.hpp:43-72 | the loop over joints accepts exactly the bridges that pass |
| `MpcWorker.OutputWorker.MakeTransition` | src/MPCSession.cpp:302-313 | the bridge built joint by joint |
| `MpcWorker.OutputWorker.SampleAt` | src/MPCSession.cpp:264-269 | the reference built joint by joint |
| `MpcWorker.OutputWorker.MakeCommand` | src/MPCSession.cpp:321-337 | the command built joint by joint, or none if some joint is too far from where it was measured |
| `MpcWorker.OutputWorker.AdoptLatest` | src/MPCSession.cpp:289-319 | plan, bridge and counter after the plan gates |
| `MpcWorker.OutputWorker.CloseSlot` | src/MPCSession.cpp:359-371 | lateness gate, next slot, missed counter, status |
| `MpcWorker.OutputWorker.Send` | src/MPCSession.cpp:320-358 | tracking and lateness gates, the command, what is remembered of it |
| `MpcWorker.OutputWorker.Pass` | src/MPCSession.cpp:270-373 | one pass through the loop, updated in place, is the model's period |
| `MpcWorker.OutputWorker.Work` | src/MPCSession.cpp:270-373 | pass after pass, with the wait in between, is the model's run, about which the theorems are |
| `MpcPlanner.Planner.constructor` | src/MPCSession.cpp:206-209 | a new planner has solved nothing |
| `MpcPlanner.Planner.Pass` | src/MPCSession.cpp:210-243 | one pass through the planner's loop is the model's period |
| `MpcPlanner.PlansAreNumbered` | src/MPCSession.cpp:231-233 | published plans are numbered from one without gaps |
| `MpcPlanner.PlanningIsAccountedFor` | src/MPCSession.cpp:225-240 | every period is one solve, every solve but the failed ones published a plan, and the grid is conserved |
| `MpcPlanner.PlansAreDatedByFeedback` | src/MPCSession.cpp:211-220 | a plan is dated by valid feedback no older than the state timeout |
| `MpcPlanner.Planner.Work` | src/MPCSession.cpp:210-243 | pass after pass, with the wait in between, is the planner's run |
| `MpcPlanner.NextSolveIsAhead` | src/MPCSession.cpp:234-240 | after a solve the next slot lies in (done, done + period], and the periods counted as missed fit into the overrun |
| `MpcPlanner.SolvesKeepToTheirSlots` | src/MPCSession.cpp:210-242 | in every run, waits included, no solve starts before its slot |
| `MpcWait.AwaitSlot` | src/MPCSession.cpp:174-178 | the loop of a wait returns what the specification names |
| `MpcWait.ReachedInTime` | src/MPCSession.cpp:174-178 | a wait that comes through ends no earlier than its time, if a stop is never withdrawn |
| `MpcWait.WaitsExactlyAsLong` | src/MPCSession.cpp:174-178 | a wait goes on exactly as long as it sees neither its time come nor a stop |
| `MpcModel.JointLimits` | src/MPCSession.cpp:91-96 | with a valid configuration every joint's speed limit is positive and no more than the configured one |
| `MpcStop.NextInv` | src/MPCSession.cpp:103-178 | every atomic step of every caller and worker keeps the protocol's invariant |
| `MpcStop.SemaphoresNeverOverflow` | src/MPCSession.cpp:155-162 | in every interleaving of writers, stoppers and workers each semaphore holds at most two tokens |
| `MpcStop.FirstReasonStands` | src/MPCSession.cpp:155-162 | the first stop reason is never overwritten |
| `MpcStop.AtMostOneLateSend` | src/MPCSession.cpp:344-345 | at most one command goes out after a stop has been requested |
| `MpcStop.NothingAfterReturn` | src/MPCSession.cpp:164-170 | once a stop() has returned both workers have ended for good and no command goes out |
| `MpcStop.StopNeverStalls` | src/MPCSession.cpp:164-178 | while a worker has not ended, some agent can take a step that brings the end nearer: nobody waits for a token that never comes |
| `MpcStop.StopProgresses` | src/MPCSession.cpp:174-178 | every such step lowers what remains to be done and no other step raises it |
| `MpcStop.StopCompletes` | src/MPCSession.cpp:164-178 | in any order and whatever else happens, no more of those steps are taken than there were left to do |
| `MpcStop.NothingLeftMeansEnded` | src/MPCSession.cpp:164-178 | when nothing is left to do both workers have ended |
| `MpcStop.StopEnds` | src/MPCSession.cpp:164-178 | so a stop ends both workers within a bounded number of useful steps, in any order |
| `UsbUri.ParsePrinted` | src/UsbDiscovery.cpp:108-180 | parsing the URI printed for a device recovers its ids and its serial number or path, or nothing: exactly when an id is zero, the serial has a NUL byte or a path component is zero |
| `UsbUri.SelectsItself` | src/UsbDiscovery.cpp:217-253 | selecting by the URI printed for a listed device returns it exactly when no other listed device has the same ids and serial number or path; else the URI is ambiguous or invalid |
| `UsbUri.PrintedUrisAreKeys` | src/UsbDiscovery.cpp:156-180 | two nameable devices print the same URI exactly when the same key selects them |
| `UsbUri.RoundTrip` | src/UsbDiscovery.cpp:43-84 | decoding what was encoded gives it back exactly if it is not empty and has no NUL byte |
| `UsbUri.EncodedIsClean` | src/UsbDiscovery.cpp:63-84 | an encoded text has only unreserved characters and percent signs |
| `UsbUri.PathRoundTrip` | src/UsbDiscovery.cpp:86-106 | parsing a printed path gives it back exactly when no component is zero |
| `UsbUri.TrailingDotAccepted` | src/UsbDiscovery.cpp:86-106 | a path followed by a dot parses as well, and is printed without it |
| `UsbUri.LeadingZeroAccepted` | src/UsbDiscovery.cpp:86-106 | a path with a zero in front parses as well, and is printed without it |
| `UsbUri.PrintedWhenCanonical` | src/UsbDiscovery.cpp:86-106 | a text that parses as a path is printed back exactly if it does not end in a dot and no component of it starts with a zero |
| `UsbUri.ParsedIds` | src/UsbDiscovery.cpp:20-34 | parsing printed ids gives them back exactly when neither is zero |
| `UsbUri.Hex4` | src/UsbDiscovery.cpp:148-154 | four hexadecimal digits whose value is the word |
| `UsbUri.Decimal` | src/UsbDiscovery.cpp:174-178 | decimal digits whose value is the number |
| `UsbUri.PercentEncode` | src/UsbDiscovery.cpp:70-84 | the loop computes the encoding |
| `UsbUri.PercentDecode` | src/UsbDiscovery.cpp:43-61 | the loop decodes or rejects as specified |
| `UsbUri.ParsePortPath` | src/UsbDiscovery.cpp:86-106 | the loop parses or rejects as specified |
| `UsbUri.PrintPath` | src/UsbDiscovery.cpp:172-178 | the loop prints the components with dots between them |
| `UsbUri.SelectDevice` | src/UsbDiscovery.cpp:217-253 | the loop over the listed devices counts the matches and keeps the first |
| `Latency.SensibleRate` | src/LatencyEstimator.cpp:51-59 | over positive non-decreasing times the reported rate times the window's span is a million times its number of intervals |
| `Latency.FilledCells` | src/LatencyEstimator.cpp:16-18 | the filled cells of the ring add up to the most recent intervals |
| `Latency.PushHolds` | src/LatencyEstimator.cpp:15-18 | overwriting the oldest cell keeps the ring a window on the last 64 intervals |
| `Latency.WindowSpan` | src/LatencyEstimator.cpp:14-18 | after n frames the window holds the last min(n - 1, 64) intervals and they telescope to newest minus oldest time |
| `Latency.SmoothedStaysInRange` | src/LatencyEstimator.cpp:38-48 | the smoothed round trip never leaves the range of its samples |
| `Latency.Estimator.constructor` | include/florid/detail/LatencyEstimator.hpp:36-48 | a new estimator has seen nothing |
| `Latency.Estimator.MarkReceived` | src/LatencyEstimator.cpp:8-49 | after a frame ring, count and smoothed round trip are those of the history with that frame |
| `Latency.Estimator.Total` | src/LatencyEstimator.cpp:53-55 | the loop over the ring computes the wrapped sum of the recent intervals |
| `Latency.Estimator.ReceiveHz` | src/LatencyEstimator.cpp:51-59 | the rate of the recent intervals |
| `SourceClosure.Closure` | scripts/vendor_acados.py:97-117 | the worklist ends with the least set that holds the start and is closed under includes, every file read once; or with a file that shows that no closed set exists |
| `SourceClosure.ShippedFiles` | scripts/vendor_acados.py:97-117 | for a component: the least set with its sources, headers, licence and, for BLASFEO, the target template that is closed under includes; or a file that shows that no such set exists |
| `SourceClosure.Scan` | scripts/vendor_acados.py:108-116 | the inner loops keep everything one file includes |
| `SourceClosure.FirstExisting` | scripts/vendor_acados.py:110-116 | the inner loop finds the first candidate that exists |
| `SourceClosure.NoneClosed` | scripts/vendor_acados.py:107-112 | a needed file that cannot be read or includes one outside the tree means that no closed set exists |
| `SourceClosure.NeededMore` | scripts/vendor_acados.py:111-115 | what a needed file includes is needed |

## Left out

- The Wirelink core, its RPC runtime and bulk sender, the codecs, the executor and the generated bindings: they appear only as the answers they may give.
- USB, serial and UDP transports, device discovery, the `Arm`, `Gripper` and `ArmImpl` wrappers, the Python bindings and the error-message tables.
- The acados solver and its generated dynamics: a solve is a verdict and a plan.
- Floating-point rounding, NaN propagation and the casts between `float` and `double`: numbers are reals with a flag for "all finite", and a square root is any function whose square is its argument.
- The `send*` functions that copy command fields, the switch that fills requests by kind, and the telemetry callbacks (status, diagnostics, latest-value draining).
- Text copying in device info beyond its length limits, and reading a response of the wrong type, which is treated as a missing response.
- The endpoint's and the upgrade client's own waiting (condition variables, `waitOperation`) beyond what is read before and after it.
- `EndpointObject.Endpoint.OwnerPass`: runs without other threads in between, so the upgrade client's claim is one value for the pass; interleavings are the subject of `EndpointRuns` and `EndpointHistory`.
- `EndpointHistory.BudgetEndsByDeadline`: speaks of ages within 2^31 milliseconds, the range in which a 32-bit difference has a meaning.
- The CRC of an upload and the fields of its chunks: an upload is its image, the sender's reports and the device's grant.
- `FirmwareSession.Session.BootQuery`: that a boot status is delivered during the call is a contract of the environment here; that the upgrade client keeps it is `UpgradeTheorems.BootStatusIsReadDuringItsCall`, about its own runs.
- `FirmwareSession.Session.QueryInfo`: milliseconds are whole numbers, so time is not split between the rounding of two readings.
- `MpcCubic.Within`: the checks that coefficients are finite have no counterpart over the reals.
- `MpcWorker.OutputWorker.Pass`: the status fields shown to the user (largest lateness, ages, reference copies) are not kept, and the timer resolution request is an early failure in `MpcStop` only.
- `MpcStop`: a solve, a send and a measurement are taken to return; mailbox contents are the subject of `MpcModel`.
- The jitter of the latency estimator, which needs a square root of a variance and is not used for control.
- `SourceClosure.Closure`: returns a set; the sorting of the result, the regular expression that finds includes and path resolution are inputs. The other functions of that script run git, tar and CMake.
