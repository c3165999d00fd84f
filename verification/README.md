# Verified models of the console

This project models the parts of the RustDesk console that must not go wrong when things fail or
interleave, and proves what they promise.

- **Software updates** (`Update*.dfy`). A job is a write-ahead-journalled transaction: operations with
  intent and done records, a maintenance fence, a backup, a switch of release links, and one
  irrevocable decision. `UpdateProtocol` is the machine: journal, fence, links and installation record,
  each with the value a reader sees and the value a power loss would bring back, services, business
  data and every acknowledged write. `UpdateRuns` states what holds over all runs of its events.
  `UpdateHost`, `UpdateAdapters` and `UpdateWorker` are the imperative code; any call may fail before,
  during or after its effect, and every effect must be one the protocol allows, so that what the worker
  does is always a run. `UpdateLifetime` strings worker runs, recovery commands and power losses
  together. `UpdateAdmission` is the admission of jobs, any number of calls behind one promise chain,
  and `UpdateControl` the process that runs it.
- **Web client** (`WebClient*.dfy`). The session service and the gateway as one state; each stretch of
  code between two awaits is one step, and steps of any number of requests, channels, checks, timeouts
  and shutdowns interleave freely. `WebClientInvariant` to `WebClientHistory` show what every step
  keeps, `WebClientRuns` and `WebClientHolds` what follows for all runs, `WebClientTimes` when sessions and tickets end,
  `WebClientClaims` where claims and checks come from, and `WebClientProgress` that a request that meets
  every condition gets through to its relay. `WebClientService` is the service with its loops and
  reservation counts, each method proved equal to its step.
- **Handshakes** (`Protocol*.dfy`). The canonical-only protobuf reader, an ordinary lenient decoder to
  compare it with, and the three handshakes; `ProtocolMessages` says in terms of entries which messages
  are accepted.
- **Strategies** (`Strategy*.dfy`). The tables with their foreign keys, and the service with its two
  caches.
- **Server events** (`Event*.dfy`). The incremental frame splitter, a line-by-line reader to compare it
  with, and a writer whose streams are read as they were meant.
- **Backup of files** (`Storage*.dfy`) and **release archives** (`Tar*.dfy`). Scanning, copying,
  verifying and restoring a file tree, and what a scan and a manifest may hold; reading tar archives,
  creating what they hold, and exactly which archives are refused.

Where the code and its documentation differ, the model follows the code. `docs/system-update.md` says
that a job that needs recovery keeps maintenance active, and the worker writes the same into the job.
The worker also parks a job as `recovery_required` with an open fence: when the write that opens the
fence fails after its rename, for a decided job or one that never switched
(`UpdateLifetime.ParkedIsFencedExactlyWhenUndecided`). A scan accepts names that the check of the
manifest refuses; such data is backed up, and the validation right after the backup ends the update
before its switch (`StorageManifest.ColonIsBackedUpAndLost`). The event reader's buffer limit depends
on how the stream is cut, although the events do not (`EventReader.OverflowDependsOnTheCut`).

How to read the models: random identifiers, tickets and hashes are numbers that were not used before;
time is a number that only grows; answers of authorization, of audits, of sockets and of the planner
are arguments of the steps. A host is given its `Faults`: none, any number anywhere, one place that
always fails, or one call, of any number, that fails once.

## Model

| member | source | states |
|---|---|---|
| UpdateRuns.FenceOpensOnlyAfterDurableDecision | src/updater/worker.ts:114-156 | in every state of every run, a job whose switch is durably journalled has an open fence, seen or kept, only once its decision is durable |
| UpdateRuns.DurableDecisionIsFinal | src/updater/worker.ts:125-156 | a durable decision never changes; after a durable commit every link and the installation record name the target for ever and no data restore has been or will be started |
| UpdateRuns.NoAcknowledgedWriteIsLost | src/updater/worker.ts:76-94 | readable data always holds exactly the acknowledged business writes; while a restore is half done nothing runs or may start and the snapshot holds every write |
| UpdateRuns.CopiesAreTakenAtRest | src/updater/worker.ts:157-190 | backup and restore start only with services stopped and the fence durably closed, each for the first time, and a restore starts only from a snapshot that is current |
| UpdateRuns.FenceIsContinuous | src/updater/worker.ts:76-113 | from the durable switch record to the decision the fence is raised and the snapshot current at every step in between, power losses included |
| UpdateRuns.TerminalStatusTellsTheTruth | src/updater/worker.ts:126-213 | succeeded, rolled_back and failed, seen or kept, each imply the links, installation record, data and restore count they stand for |
| UpdateRuns.DurableTerminalIsAbsorbing | src/updater/store.ts:8-9 | a durable terminal record is never replaced |
| UpdateRuns.VisibleTerminalIsAbsorbing | src/updater/store.ts:8-9 | without a power loss even a visible terminal status is final, and no job is queued again |
| UpdateRuns.JournalHasAFixedShape | src/updater/worker.ts:14-26 | the operations of every journal are a prefix of the nine with all but the last done; switch implies the snapshot; a decision implies its operations are done; backup and restore each start at most once per job |
| UpdateRuns.EarlierOperationsAreDone | src/updater/worker.ts:68-108 | what is recorded for a later forward operation implies every earlier one is done |
| UpdateRuns.RunKeepsInv | src/updater/worker.ts:50-223 | the invariant of machine, journal and fence holds after every run of events, faults and power losses included |
| UpdateRuns.RunProgresses | src/updater/worker.ts:14-26 | along every run acknowledged writes, counters and durable journal evidence only grow |
| UpdateProtocol.EventKeepsInv | src/updater/io.ts:24-41 | every single effect the rules allow, in the worker, the services or the disk, keeps the invariant |
| UpdateProtocol.PowerLossKeepsInv | src/updater/io.ts:24-41 | so does a power loss, which brings back what was last made durable |
| UpdateHost.Host.AtomicWrite | src/updater/io.ts:24-41 | a returned write is durable; a failed one leaves old or new, seen or kept, and nothing else changes |
| UpdateHost.Host.SaveJob | src/updater/store.ts:50-57 | a returned save is durable; every failure of it is a journal failure |
| UpdateHost.Host.WriteMaintenance | src/updater/maintenance.ts:49-60 | a returned write makes the fence durable; whatever fails, neither job nor links are disturbed; when only the sync after an opening fails, the fence is seen open |
| UpdateHost.Host.SetLink | src/updater/adapters/linux.ts:220-225 | a returned swap makes one link durable and changes no other |
| UpdateHost.Host.AwaitServices | src/updater/adapters/linux.ts:237-243 | what the service manager is relied on for: on a machine where no other call fails, services the fence lets start are up |
| UpdateAdapters.LinuxDeployment.StopApplications | src/updater/adapters/linux.ts:200-219 | returns only with the services stopped |
| UpdateAdapters.LinuxDeployment.SwitchApplications | src/updater/adapters/linux.ts:226-236 | returned, the links of both components durably name the target; failed, only links have changed |
| UpdateAdapters.LinuxDeployment.Verify | src/updater/adapters/linux.ts:244-273 | succeeds only if links and running services are the expected release; it starts and changes nothing itself |
| UpdateAdapters.LinuxDeployment.UpdateHelper | src/updater/adapters/linux.ts:274-288 | returned, the updater link durably names the target backend |
| UpdateAdapters.LinuxDeployment.RestoreDeployment | src/updater/adapters/linux.ts:289-310 | returned, every link and the installation record are durably the original |
| UpdateAdapters.LinuxDeployment.Commit | src/updater/adapters/common.ts:208-217 | returned, the installation record durably names the target |
| UpdateWorker.Worker.Begin | src/updater/worker.ts:19-21 | the intent is durable before the action, and only in the fixed order |
| UpdateWorker.Worker.End | src/updater/worker.ts:23-25 | the evidence is durable after the action |
| UpdateWorker.Worker.Decide | src/updater/worker.ts:114-124 | the decision in memory follows the one on disk, never the other way round |
| UpdateWorker.Worker.CompleteDecision | src/updater/worker.ts:126-156 | never restores; unless a fault strikes it ends in the status the decision stands for; when the reopening fails after its rename it parks the job with the fence open |
| UpdateWorker.Worker.RestoreSnapshot | src/updater/worker.ts:184-189 | restores data once, on the original deployment, behind the closed fence |
| UpdateWorker.Worker.Recover | src/updater/worker.ts:157-223 | every outcome is a legal continuation; unless a fault strikes it ends where the record it found says; a recorded restore is not started again; an interrupted one parks the job undecided |
| UpdateWorker.Worker.Run | src/updater/worker.ts:50-113 | whatever fails, all effects are a legal run; without faults the job ends in the status determined by the record found; when one call fails once, the job still ends: a queued job fails with the fence open if no switch was recorded, and is rolled back to the original deployment with one restore if it was; when the reopening of the fence fails after its rename, the job ends parked with the fence open, but for an undecided restore; and whatever fails, the run has ended its job only after just the calls of its path returned, in their order |
| UpdateWorker.Worker.Update | src/updater/worker.ts:68-124 | a queued job has succeeded only after preparation, raised fence, stop, backup, its validation, switch, start behind the fence, verification, helper, installation record, verification and the opening of the fence returned in this order; a failed action is recovered from at once |
| UpdateWorker.Worker.TryRecover | src/updater/worker.ts:157-213 | a job that meant to raise the fence is isolated before anything is restored; what was switched has links, then validated data restored, the original started and verified behind the fence, and only then is the restore decided and the fence opened; what was not switched is verified if it was ever fenced |
| UpdateLifetime.Lifetime | src/updater/worker.ts:50-223 | any given sequence of worker runs and recovery commands, each with its faults, power losses and pauses is one legal run, and each piece leaves the machine as that piece may, also when one of its calls fails once |
| UpdateLifetime.ParkedIsFencedExactlyWhenUndecided | src/updater/worker.ts:147-155 | of worker runs: whatever fails, a job parked undecided is fenced; when just the reopening fails, every job the worker continues is parked, and it is fenced if and only if it was found with an interrupted, undecided restore |
| UpdateLifetime.WorkOnce | src/updater/worker.ts:50-113 | one worker run under given faults is legal, and its result is tied to the record found and to the faults |
| UpdateLifetime.RecoverCommand | src/updater/entrypoint.ts:57-75 | refuses, changing nothing, exactly when an undecided restore was interrupted; otherwise asks for the same job again |
| UpdateLifetime.RecoverToTheEnd | src/updater/entrypoint.ts:57-82 | from every reachable state one fault-free run, after the recovery command where needed, ends the job, but for an interrupted undecided restore, which stays parked without another restore |
| UpdateLifetime.RunsCompose | src/updater/worker.ts:50-223 | legal runs continue one another |
| UpdateAdmission.StepKeepsChain | src/updater/control.ts:18-22 | each call waits for the one before it and none begins while an earlier one is unsettled, whatever joins, fails, settles or dies |
| UpdateAdmission.ChainAdmitsOne | src/updater/control.ts:18-22 | of any number of pending accepts and reconciles at most one is past its turn: this follows from the chain |
| UpdateAdmission.ChainMovesOn | src/updater/control.ts:20-20 | a settled call, failed or not, lets the next begin: while a call is unsettled, one is running or may begin |
| UpdateAdmission.ExclusionKeepsJobs | src/updater/control.ts:23-120 | as long as one operation at a time is past its turn, every step keeps jobs sound: one unfinished, unique keys and ids, and what was read still true |
| UpdateAdmission.RunKeepsInv | src/updater/control.ts:18-120 | over every interleaving of calls, reads, saves, failures, worker steps and deaths of the process chain and jobs stay sound, jobs keep their identity and a terminal job never changes |
| UpdateAdmission.OneJobAtATime | src/updater/control.ts:58-62 | from an empty store: one operation inside, two unfinished jobs are the same job, so are two with one key, and ownership is never uncertain |
| UpdateAdmission.WithoutTheChainTwoJobsRun | src/updater/control.ts:18-22 | without the chain two accepts that both read before either saves leave two unfinished jobs, even with one key |
| UpdateAdmission.RepeatedRequestGetsTheSameAnswer | src/updater/control.ts:46-57 | repeating a request at any later time names the same job or the same conflict |
| UpdateAdmission.ReconcileChoosesTheOnlyJob | src/updater/control.ts:107-120 | while a reconcile is about to start a worker, no other job is unfinished |
| UpdateAdmission.WorkersAdvance | src/updater/worker.ts:50-223 | every change the update transaction makes to a visible status, without power loss, is one the admission reckons with |
| UpdateControl.Control.Accept | src/updater/control.ts:23-99 | behind any number of pending calls: answers a known key from its job, admits a new one only when all are finished, and its answer stays true; it is unavailable only when the journal, the plan or a write fails, and lost only when the process dies before the answer |
| UpdateControl.Control.Serialized | src/updater/control.ts:18-22 | a call waits for the pending promise and becomes it |
| UpdateControl.Control.AwaitTurn | src/updater/control.ts:18-22 | an operation begins once the call before it is settled, or never if the process dies |
| UpdateControl.Control.Check | src/updater/control.ts:29-62 | the checks over the job files settle a request exactly as specified, or let it be saved |
| UpdateControl.Control.Reconcile | src/updater/control.ts:107-120 | nothing to do means that no job is unfinished but those that wait for recovery; else the worker of the one unfinished job is at work or is started; it is unavailable only when the journal or that start fails |
| UpdateControl.Control.Admit | src/updater/control.ts:63-99 | saves a checked request under a new identifier; it is accepted if and only if its plan holds and its file is written and synced |
| UpdateControl.Control.Tend | src/updater/control.ts:116-118 | starts the worker of the chosen job exactly when it is not alive |
| UpdateControl.Control.Current | src/updater/store.ts:72-81 | never finds several unfinished jobs; returns the unfinished one, else the newest |
| UpdateControl.Control.FindDuplicate | src/updater/control.ts:47-49 | finds the job with the key |
| UpdateControl.Control.EveryTerminal | src/updater/control.ts:58-59 | whether all jobs are finished |
| WebClientRuns.EveryRunKeepsInv | src/modules/web-client/web-client.gateway.ts:227-453 | the invariant of sessions, tickets, requests and channels holds after every sequence of steps of both services |
| WebClientRuns.AttachedChannelsAreRegistered | src/modules/web-client/web-client.gateway.ts:277-297 | at every step boundary a running channel past its ticket is registered with a session that is still live |
| WebClientRuns.NothingFlowsForAnEndedSession | src/modules/web-client/web-client.gateway.ts:378-453 | once a session has ended, no channel that ever claims it carries another frame in either direction |
| WebClientRuns.SessionsNeverReturn | src/modules/web-client/web-client-session.service.ts:517-540 | a session that left the map never returns, however late its pending checks answer |
| WebClientRuns.SessionsKeepTheirIdentity | src/modules/web-client/web-client-session.service.ts:124-216 | from its request to its end a session keeps its login, target, kind, parent and configuration |
| WebClientRuns.SessionsOnlyAge | src/modules/web-client/web-client-session.service.ts:349-383 | while a session lives its expiry only comes closer, and once active it stays so |
| WebClientRuns.PassedChecksAreStrict | src/modules/web-client/web-client-session.service.ts:349-383 | a passed check leaves a current session that ends with its login or when it did before, whatever is earlier, of the configuration in force, below a live and active parent of the same login, and touches no other session |
| WebClientRuns.ChecksPassExactly | src/modules/web-client/web-client-session.service.ts:349-373 | a check passes if and only if it was allowed for longer than now, and the session is live, unexpired, active or younger than two minutes, of the configuration in force, and below an unexpired active parent of the same login |
| WebClientRuns.FailedChecksEndTheFamily | src/modules/web-client/web-client-session.service.ts:374-382 | a failed check ends the session and its children, and no other session |
| WebClientTimes.SessionsEndInTime | src/modules/web-client/web-client-session.service.ts:156-180 | of every session in every run: it counts from its validation, and then ended after eight hours, with its login, or with its live parent, whatever came first; it ends then, or when a later answer for this very session said |
| WebClientTimes.TicketsEndInTime | src/modules/web-client/web-client-session.service.ts:186-208 | every ticket was issued with its session, under the configuration the session was requested for, once its audit was stored; it ends after a minute or with the session, whatever comes first |
| WebClientTimes.OtherStepsShorten | src/modules/web-client/web-client-session.service.ts:349-383 | no other step changes a ticket or the start of a session, and only the answer for a session brings its end closer |
| WebClientClaims.ClaimsComeFromTickets | src/modules/web-client/web-client-session.service.ts:285-307 | in every run a claim stands for a ticket of that session and phase, sent by that channel before the ticket ended, for a session that might be used; a relay ticket only once the relay was bound |
| WebClientClaims.ChecksComeFirst | src/modules/web-client/web-client.gateway.ts:277-348 | no channel is past the check of its ticket, of its opening or of its relay unless that check was made for it and passed |
| WebClientClaims.TrafficIsChecked | src/modules/web-client/web-client.gateway.ts:299-376 | before the first frame of a channel its ticket and its opening were checked and allowed, on a relay channel also its relay |
| WebClientClaims.AttachmentsAreAuthorized | src/modules/web-client/web-client.gateway.ts:277-297 | a channel joined its session while the session might be used and had at most one other channel |
| WebClientProgress.SessionsOpen | src/modules/web-client/web-client.gateway.ts:227-453 | at any point of any run a request that meets every condition becomes a session in the given steps: its tickets attach two channels, the rendezvous forwards request and reply and binds the relay, the relay channel opens with it and carries frames both ways; the session ends at the first of the three ends, and all else stays as it was |
| WebClientProgress.RequestIsIssued | src/modules/web-client/web-client-session.service.ts:119-216 | a desktop request, or a file request below an open desktop session, becomes a session with two tickets when every condition is met, and nothing else changes |
| WebClientRuns.NoSessionWhileHeldOff | src/modules/web-client/web-client-session.service.ts:565-600 | while a check is overdue, or after shutdown, there are no sessions and no tickets |
| WebClientHolds.HeldOffUntilSettled | src/modules/web-client/web-client-session.service.ts:565-600 | in every run there is no session and no ticket from the moment a check exceeds its deadline until that very check ends, and none for ever after shutdown |
| WebClientHolds.DeniedRequestsEnd | src/modules/web-client/web-client-session.service.ts:217-250 | a denied request ends and gives back its reservation; nothing else changes |
| WebClientHolds.PurgingDropsTheEnded | src/modules/web-client/web-client-session.service.ts:390-393 | of the tickets exactly those that ended are dropped |
| WebClientRuns.NoSessionStraddlesATimeout | src/modules/web-client/web-client-session.service.ts:183-216 | a request or session from before a timeout is no session at any time after it |
| WebClientRuns.OneClaimPerTicket | src/modules/web-client/web-client-session.service.ts:285-307 | no two channels ever hold claims redeemed for one ticket |
| WebClientRuns.RendezvousCarriesOneFrameEachWay | src/modules/web-client/web-client.gateway.ts:350-376 | a rendezvous channel carries at most one frame up and one down |
| WebClientRuns.RelayTrafficIsBoundAndAudited | src/modules/web-client/web-client.gateway.ts:299-348 | what a relay channel carries starts with the relay bound by a reply on a rendezvous channel of the same session, after the opening was audited |
| WebClientRuns.RelaysAreBoundOnce | src/modules/web-client/web-client-session.service.ts:309-322 | a binding never changes |
| WebClientRuns.LiveSessionsNeverShareARelay | src/modules/web-client/web-client-session.service.ts:309-322 | two live sessions never have the same relay |
| WebClientRuns.QuotasHold | src/modules/web-client/web-client-session.service.ts:626-647 | sessions and reservations are at most 256 in all and 8 per login, at every step |
| WebClientRuns.TicketsBelongToLiveSessions | src/modules/web-client/web-client-session.service.ts:517-532 | every ticket belongs to a live session that lists it |
| WebClientRuns.FileSessionsHaveLiveParents | src/modules/web-client/web-client-session.service.ts:137-155 | every live file session has a live, active desktop parent of the same login and target |
| WebClientRuns.EveryRunEvolves | src/modules/web-client/web-client-session.service.ts:517-540 | along every run ended sessions, redeemed tickets, bindings and audits are never taken back and no session appears without its request |
| WebClientLifecycle.NextKeepsInv | src/modules/web-client/web-client.gateway.ts:227-453 | any next step, whoever takes it, keeps the invariant |
| WebClientHistory.NextMoves | src/modules/web-client/web-client.gateway.ts:378-396 | any step moves claims, stops, frames and histories only forward, and frames only on attached channels |
| WebClientCreation.CreateAuditedKeepsInv | src/modules/web-client/web-client-session.service.ts:183-216 | issuing a session and its tickets, or denying it after all, keeps the invariant |
| WebClientCreation.IssuingKeepsQuota | src/modules/web-client/web-client-session.service.ts:626-647 | a reservation that becomes a session changes no count |
| WebClientInvariant.InvalidateKeepsInv | src/modules/web-client/web-client-session.service.ts:517-540 | ending any family-closed set of sessions keeps the invariant |
| WebClientSteps.RecheckKeepsInv | src/modules/web-client/web-client-session.service.ts:349-383 | a completed check keeps the invariant, ends the family or leaves a current session |
| WebClientSteps.StopRepairsInv | src/modules/web-client/web-client.gateway.ts:407-453 | stopping a channel restores the invariant from the half-done state of a failed send |
| WebClientChannels.ReceiveTicketKeepsInv | src/modules/web-client/web-client-session.service.ts:285-297 | spending a ticket keeps the invariant |
| WebClientChannels.AuthorizeKeepsInv | src/modules/web-client/web-client.gateway.ts:277-297 | taking a claim and attaching keep the invariant, also when the session or channel is gone by then |
| WebClientChannels.ReplyKeepsInv | src/modules/web-client/web-client.gateway.ts:350-376 | binding the relay of a reply and forwarding it keep the invariant |
| WebClientChannels.RelayAuditedKeepsInv | src/modules/web-client/web-client-session.service.ts:334-347 | so does the end of the opening audit, however it ends |
| WebClientService.CountsAddUp | src/modules/web-client/web-client-session.service.ts:626-647 | the per-login reservation counts add up to the number of pending requests |
| WebClientService.SessionService.Reserve | src/modules/web-client/web-client-session.service.ts:626-641 | the loops over counts and sessions decide exactly whether the quotas allow one more |
| WebClientService.SessionService.Invalidate | src/modules/web-client/web-client-session.service.ts:517-540 | the two passes over the sessions leave exactly the specified state |
| WebClientService.SessionService.CloseGrant | src/modules/web-client/web-client-session.service.ts:492-515 | ends exactly the session and its children |
| WebClientService.SessionService.TimeOut | src/modules/web-client/web-client-session.service.ts:573-592 | leaves exactly the specified state |
| WebClientService.SessionService.BeginCreate | src/modules/web-client/web-client-session.service.ts:124-155 | checks, reserves and classifies a request as specified and keeps the counts right |
| WebClientService.SessionService.ValidateCreate | src/modules/web-client/web-client-session.service.ts:156-164 | stamps an allowed request with the earliest of its three ends, as specified, and keeps the counts right |
| WebClientService.SessionService.FinishCreate | src/modules/web-client/web-client-session.service.ts:183-216 | issues or denies as specified and keeps the counts right |
| WebClientService.SessionService.EndCreate | src/modules/web-client/web-client-session.service.ts:217-248 | a denied request ends without a session and gives back its reservation |
| WebClientService.SessionService.EnsureValid | src/modules/web-client/web-client-session.service.ts:349-383 | the checks after the answer leave exactly the specified state and result |
| WebClientService.SessionService.ConsumeTicket | src/modules/web-client/web-client-session.service.ts:285-297 | the ticket is gone whatever comes of it; the result is as specified |
| WebClientService.SessionService.MayBindRelay | src/modules/web-client/web-client-session.service.ts:309-322 | the scan of the other sessions decides exactly whether the relay may be bound |
| WebClientService.SessionService.StopChannel | src/modules/web-client/web-client.gateway.ts:407-453 | stops, detaches and ends the grant as specified |
| WebClientService.SessionService.PurgeTickets | src/modules/web-client/web-client-session.service.ts:390-393 | drops exactly the expired tickets |
| ProtocolWire.VarintsAreABijection | src/modules/web-client/web-client-protocol.ts:14-27 | accepted varints and the numbers below 2^32 correspond one to one |
| ProtocolWire.ReadIsCanonical | src/modules/web-client/web-client-protocol.ts:14-27 | an accepted varint is the one minimal encoding of its value |
| ProtocolWire.VarintsAreShort | src/modules/web-client/web-client-protocol.ts:16-26 | an accepted varint is at most five bytes long |
| ProtocolWire.AcceptedIsEncoding | src/modules/web-client/web-client-protocol.ts:29-56 | re-encoding the entries of accepted bytes gives the same bytes, and the entries keep to the schema |
| ProtocolWire.FieldsAcceptExactlyEncodings | src/modules/web-client/web-client-protocol.ts:29-56 | exactly the encodings of schema-conforming entries within the size limit are accepted, each as those entries |
| ProtocolWire.StrictAgreesWithOrdinary | src/modules/web-client/web-client-protocol.ts:29-56 | an ordinary decoder, which allows longer varints, skips unknown fields and lets the last one win, reads accepted bytes as the same map |
| ProtocolReader.NextVarint | src/modules/web-client/web-client-protocol.ts:14-27 | the loop over the cursor reads what the definition says and advances by its length |
| ProtocolReader.ReadFields | src/modules/web-client/web-client-protocol.ts:29-56 | the loop that fills the map accepts and yields exactly what the definition says |
| ProtocolHandshake.ReadEnvelope | src/modules/web-client/web-client-protocol.ts:71-80 | finds the one allowed message, if the map has just that field |
| ProtocolHandshake.MapHasEveryEntry | src/modules/web-client/web-client-protocol.ts:37-43 | no field comes twice, so the map is as large as the list of entries |
| ProtocolHandshake.PunchHoleIsSound | src/modules/web-client/web-client-protocol.ts:89-111 | of an accepted request every ordinary decoder that knows these fields reads exactly the bound target, key and kind |
| ProtocolHandshake.RequestRelayIsSound | src/modules/web-client/web-client-protocol.ts:113-132 | the same, and the bound relay |
| ProtocolHandshake.ReplyIsSound | src/modules/web-client/web-client-protocol.ts:137-175 | of a reply every ordinary decoder reads the same relay, or the same refusal |
| ProtocolHandshake.PunchHoleAcceptsExactly | src/modules/web-client/web-client-protocol.ts:89-111 | accepted bytes are exactly the wrapped messages, in any field order, that ask for what is bound |
| ProtocolHandshake.RequestRelayAcceptsExactly | src/modules/web-client/web-client-protocol.ts:113-132 | the same for relay requests |
| ProtocolHandshake.CanonicalPunchHoleIsAccepted | src/modules/web-client/web-client-protocol.ts:89-111 | the canonical encoding of every binding within bounds is accepted |
| ProtocolHandshake.CanonicalRequestRelayIsAccepted | src/modules/web-client/web-client-protocol.ts:113-132 | the same for relay requests |
| ProtocolHandshake.PresentReadsTheSame | src/modules/web-client/web-client-protocol.ts:58-69 | a field left out for its default reads the same as one written |
| ProtocolHandshake.ValidatePunchHoleRequest | src/modules/web-client/web-client-protocol.ts:89-111 | accepts exactly the valid requests |
| ProtocolHandshake.ValidateRequestRelay | src/modules/web-client/web-client-protocol.ts:113-132 | accepts exactly the valid requests |
| ProtocolHandshake.ReadRendezvousReply | src/modules/web-client/web-client-protocol.ts:137-175 | reads exactly the specified reply |
| ProtocolMessages.PunchHoleRequestsExactly | src/modules/web-client/web-client-protocol.ts:89-111 | a rendezvous request is accepted if and only if its bytes are the wrapped message, each field once and of its kind in any order, that names the bound target, key and connection kind |
| ProtocolMessages.RelayRequestsExactly | src/modules/web-client/web-client-protocol.ts:113-132 | the same for a relay request, with the bound relay |
| ProtocolMessages.RelayIsReadExactly | src/modules/web-client/web-client-protocol.ts:137-175 | a reply is read as a relay if and only if it is a wrapped relay response, its texts well-formed, with no refusal and one UUID |
| ProtocolMessages.RefusalIsReadExactly | src/modules/web-client/web-client-protocol.ts:137-175 | a reply is read as a refusal if and only if it is a relay response with a reason, or a punch-hole response with one of the four failures and its texts well-formed |
| ProtocolMessages.EnvelopeExactly | src/modules/web-client/web-client-protocol.ts:71-80 | bytes hold a message under one of the allowed numbers if and only if they are its one wrapping |
| ProtocolMessages.ConformsExactly | src/modules/web-client/web-client-protocol.ts:29-56 | entries keep to a schema if and only if each field comes once, is known, and is of its kind |
| ProtocolMessages.TextsAreEncodings | src/modules/web-client/web-client-protocol.ts:58-63 | the texts that are let through are exactly the UTF-8 encodings of sequences of scalar values |
| ProtocolMessages.UuidsAreGroups | src/modules/web-client/web-client-protocol.ts:167-173 | a relay is five groups of hexadecimal digits of lengths 8, 4, 4, 4 and 12 between hyphens |
| StrategyTables.DeletionChangesNoOtherDevice | src/modules/strategy/strategy.service.ts:117-132 | setting references to null on deletion changes no device that resolved elsewhere, and none resolves to the deleted strategy |
| StrategyTables.GroupDeletionChangesOnlyMembers | src/modules/device-group/device-group.service.ts:405-414 | deleting a group changes the answer only for its own devices |
| StrategyTables.CreationChangesNoDevice | src/modules/strategy/strategy.service.ts:48-64 | a new strategy answers for no device |
| StrategyTables.UpdateChangesNoChoice | src/modules/strategy/strategy.service.ts:75-102 | updating a strategy changes its content, never whom it answers for |
| StrategyTables.WriteChangesOneDevice | src/modules/device-group/device-group.service.ts:829-850 | writing one device changes the answer for no other |
| StrategyTables.ResolutionFollowsRows | src/modules/strategy/strategy.service.ts:768-807 | the answer is the own strategy whatever else the rows say, without one the user's whatever the group says, then the group's, and none only without all three |
| StrategyTables.ReferringChangesOneColumn | src/modules/strategy/strategy.service.ts:291-404 | an assignment sets the strategy column of just the chosen rows of one kind |
| StrategyTables.DeletionClearsReferences | src/modules/strategy/strategy.service.ts:117-132 | a deletion leaves everything but the strategy and the references to it |
| StrategyTables.GroupDeletionClearsMembership | src/modules/device-group/device-group.service.ts:405-414 | deleting a group leaves everything but the group and the membership in it |
| StrategyCache.StrategyService.FindStrategyForDevice | src/modules/strategy/strategy.service.ts:738-766 | cached or not, the answer is the device's own strategy if it exists, else its user's, else its group's, as the rows are now, and none only without all three |
| StrategyCache.StrategyService.ResolveStrategyForPeer | src/modules/strategy/strategy.service.ts:768-807 | the cascade is the specified resolution |
| StrategyCache.StrategyService.CreateStrategy | src/modules/strategy/strategy.service.ts:48-64 | adds the strategy unless its name is taken; both caches stay coherent |
| StrategyCache.StrategyService.UpdateStrategy | src/modules/strategy/strategy.service.ts:75-102 | replaces just the given columns unless the name is taken; both caches stay coherent |
| StrategyCache.StrategyService.DeleteStrategy | src/modules/strategy/strategy.service.ts:117-132 | deletes with SET NULL; dropping only the answers that named it keeps the caches coherent |
| StrategyCache.StrategyService.AssignStrategy | src/modules/strategy/strategy.service.ts:255-404 | sets exactly the existing targets, reports each of the others once and in order, and keeps the caches coherent |
| StrategyCache.StrategyService.UnassignStrategy | src/modules/strategy/strategy.service.ts:406-583 | clears exactly the bound targets, reports each of the others once, in order and with its reason, and keeps the caches coherent |
| StrategyCache.StrategyService.Report | src/modules/strategy/strategy.service.ts:261-289 | the loops over the targets drop repetitions and report as specified |
| StrategyCache.TargetsAreAnswered | src/modules/strategy/strategy.service.ts:425-449 | each target is either changed or reported, once and with the right reason, and nothing else is |
| StrategyCache.UnassigningIsExact | src/modules/strategy/strategy.service.ts:451-583 | unassigning clears the strategy of just those targets that have it, and no other column, row or kind |
| StrategyCache.ScopesAreGroups | src/modules/device-group/device-group.service.ts:829-840 | an editor limited to some groups reaches the devices in one of them, and no device without a group |
| StrategyCache.StrategyService.DeleteDeviceGroup | src/modules/device-group/device-group.service.ts:384-414 | deletes the group unless a role assignment is limited to it; invalidating its devices one by one keeps the caches coherent |
| StrategyCache.StrategyService.AddDevicesToGroup | src/modules/device-group/device-group.service.ts:422-454 | moves exactly the known devices, and keeps the caches coherent |
| StrategyCache.StrategyService.RemoveDevicesFromGroup | src/modules/device-group/device-group.service.ts:461-495 | takes out exactly the devices that were in the group, and keeps the caches coherent |
| StrategyCache.StrategyService.UpdateDevice | src/modules/device-group/device-group.service.ts:768-851 | changes just the given references and note of a device in scope, or nothing when a reference, the device or the authorization is missing, and keeps the caches coherent |
| StrategyCache.Serve | src/modules/strategy/strategy.service.ts:749-766 | over any sequence of requests every lookup is answered from the tables of that moment |
| EventStream.BoundaryIsStable | src/modules/server-management/server-events.service.ts:44-54 | the leftmost frame boundary stays the leftmost, and as long, whatever follows |
| EventStream.TwoGoes | src/modules/server-management/server-events.service.ts:44-94 | reading in two goes with the remainder carried over is reading at once |
| EventStream.ChunkingDoesNotMatter | src/modules/server-management/server-events.service.ts:307-320 | for every stream and every way of cutting it the events and the remainder are the same |
| EventStream.RemainderIsQuiet | src/modules/server-management/server-events.service.ts:93-93 | a remainder gives no event when read again |
| EventReference.ReadersAgree | src/modules/server-management/server-events.service.ts:44-94 | the boundary reader gives exactly the events of a line-by-line reader that dispatches on blank lines |
| EventReader.ExtractServerEvents | src/modules/server-management/server-events.service.ts:44-94 | the loop yields exactly the specified events and remainder |
| EventReader.ReadFrame | src/modules/server-management/server-events.service.ts:55-65 | the loop over the lines yields the specified event name and data |
| EventReader.Follow | src/modules/server-management/server-events.service.ts:305-320 | delivers exactly the events of the chunks before the first that overflows the buffer, and fails if and only if one does |
| EventReader.FittingCutsAgree | src/modules/server-management/server-events.service.ts:314-318 | two cuttings of one stream that both fit the buffer deliver the same events |
| EventReader.OverflowCutsShort | src/modules/server-management/server-events.service.ts:314-318 | a cutting that overflows delivers the first of the events that a fitting one delivers, and nothing else |
| EventReader.OverflowDependsOnTheCut | src/modules/server-management/server-events.service.ts:315-316 | whether the buffer overflows does depend on the cut: a stream read in pieces may fail at once |
| EventWriter.FrameIsRead | src/modules/server-management/server-events.service.ts:44-94 | a written frame, with any comments, other fields, line ends and spaces after colons, is read as the event its last name and its lines of data stand for, and what follows it as it would be alone |
| EventWriter.NamedEventIsRead | src/modules/server-management/server-events.service.ts:55-90 | an event under its own name, with any number of lines of data that parse as an object, is read as that event |
| EventWriter.UnnamedEventIsRead | src/modules/server-management/server-events.service.ts:67-90 | without a name the kind in the data names the event, and without either there is none |
| EventWriter.StreamIsRead | src/modules/server-management/server-events.service.ts:44-94 | a whole stream of written frames is read as their events in order |
| StorageNames.Sorted | src/updater/backups/storage.ts:141-141 | names are listed once each, in the order of their UTF-16 code units |
| StorageTree.ScanIsFaithful | src/updater/backups/storage.ts:133-176 | a successful scan lists exactly the visible nodes of the tree |
| StorageTree.ScanRebuilds | src/updater/backups/storage.ts:207-223 | creating the entries of a scan in order never lacks a parent or meets an existing name, and rebuilds the tree |
| StorageTree.ScansAgree | src/updater/backups/storage.ts:133-176 | trees that agree below a directory have the same list |
| StorageVolume.ScanIsUnique | src/updater/backups/storage.ts:366-372 | no path is listed twice |
| StorageRestore.VerifiedHolds | src/updater/backups/storage.ts:224-245 | a tree that verifies against a list holds just what the list says, owners and modes aside |
| StorageRestore.RestoredScansTheSame | src/updater/backups/storage.ts:454-459 | a tree with the same visible part passes the final comparison |
| StorageRestore.ManifestBuilds | src/updater/backups/storage.ts:441-445 | a verified snapshot can be rebuilt beside whatever was excluded |
| StorageVolume.Restoration.CopyTop | src/updater/backups/storage.ts:405-438 | whatever fails, nothing displaced is lost; done, the entry is complete in quarantine |
| StorageVolume.Restoration.RemoveTop | src/updater/backups/storage.ts:439-439 | removing, even in part, an entry that is complete in quarantine loses nothing |
| StorageVolume.Restoration.Displace | src/updater/backups/storage.ts:405-440 | in every state on the way each top-level entry is intact or complete in quarantine; done, only excluded files remain |
| StorageVolume.Restoration.CreateAll | src/updater/backups/storage.ts:441-445 | creates exactly the snapshot beside what remained |
| StorageVolume.Restoration.SetAll | src/updater/backups/storage.ts:446-452 | puts owners and modes right |
| StorageVolume.Restoration.Restore | src/updater/backups/storage.ts:386-463 | over any tree, whatever fails, nothing is lost and excluded files stay; success means the data is exactly the backed-up tree; without faults a verified snapshot succeeds |
| StorageBackup.BackupVerifies | src/updater/backups/storage.ts:260-280 | copying the files of a scan makes a snapshot that verifies |
| StorageBackup.CopiesScanAlike | src/updater/backups/storage.ts:228-244 | a copy has the list of its original, owners and modes aside |
| StorageManifest.SnapshotIsReadExactly | src/updater/backups/storage.ts:294-384 | the snapshot of a scanned tree is read again if and only if no visible name has a colon, no file size is beyond the safe integers, and the manifest text is within 32 MiB |
| StorageManifest.EntriesAreValidExactly | src/updater/backups/storage.ts:294-320 | the entries of a scan are all valid if and only if the tree has no such name and no such size |
| StorageManifest.NamesAreScannable | src/updater/backups/storage.ts:146-164 | every name on the way to a scanned node was accepted by the scan |
| StorageManifest.ColonIsBackedUpAndLost | src/updater/backups/storage.ts:294-320 | a directory with the one file a:b is scanned, copied, verified and published, and its snapshot is refused ever after |
| StorageManifest.TakeSnapshot | src/updater/backups/storage.ts:260-293 | a backup succeeds exactly on a tree that can be scanned, and its copy verifies |
| StorageManifest.RoundTrip | src/updater/backups/storage.ts:321-463 | backing up a tree and restoring it over any other gives the tree back if and only if both can be scanned and the snapshot can be read; otherwise the other tree is untouched |
| StorageLimits.ScansExactly | src/updater/backups/storage.ts:133-176 | a tree can be scanned if and only if it has at most 100,000 visible nodes, each a plain file or a directory whose name has no backslash and no control character |
| StorageLimits.ReadEntriesAreSound | src/updater/backups/storage.ts:294-368 | whoever wrote the manifest, a snapshot is read only if it has at most 100,000 entries in at most 32 MiB, of different paths, each a directory or a file of safe size, with no colon, backslash or control character in a name |
| StorageLimits.ReadFilesAreListed | src/updater/backups/storage.ts:380-382 | the files of a snapshot that is read are exactly the listed ones, of the listed kinds and with the listed contents |
| StorageLimits.BeforeExactly | src/updater/backups/storage.ts:141-141 | names are ordered where they first differ, by code unit, or where one ends |
| StorageLimits.NameBytesAreLength | src/updater/io.ts:34-34 | the bytes counted for a name are the length of its JSON text in UTF-8, escapes and surrogate pairs included |
| StorageLimits.FilesBytesAreLength | src/updater/backups/storage.ts:264-276 | the bytes counted for the entries of a manifest are the length of their text |
| TarFormat.AcceptedIsATree | src/updater/adapters/archive.ts:43-151 | of every accepted archive the directories are ancestor-closed, no part of a path is special, and no file is a directory, hangs on a file, or comes twice |
| TarFormat.TakePathKeepsShape | src/updater/adapters/archive.ts:101-141 | every entry keeps that shape |
| TarExtract.ChecksumOf | src/updater/adapters/archive.ts:58-60 | the loop sums the header with its checksum field as spaces |
| TarExtract.ReadArchive | src/updater/adapters/archive.ts:43-151 | the loop accepts exactly what the definition accepts |
| TarExtract.Destination.MakeDirectories | src/updater/adapters/archive.ts:158-165 | in order of depth every directory is made |
| TarExtract.Destination.WriteFiles | src/updater/adapters/archive.ts:166-179 | every exclusive create finds its directory and a free name |
| TarExtract.Destination.Extract | src/updater/adapters/archive.ts:43-182 | into an empty directory every accepted archive is extracted whole, and any other leaves it empty |
| TarArchive.HeaderChecksum | src/updater/adapters/archive.ts:58-65 | the checksum of a written header is read back as right |
| TarArchive.ArchiveIsRead | src/updater/adapters/archive.ts:54-141 | an archive of members, attributes and long names among them, is read as its members in turn |
| TarArchive.AttributesAreRead | src/updater/adapters/archive.ts:83-97 | a pax record of a path is read back as that path |
| TarArchive.ItemIsTaken | src/updater/adapters/archive.ts:83-141 | a member is read under the path that its header or the heading before it gives |
| TarArchive.ExtractedIsWritten | src/updater/adapters/archive.ts:43-182 | an archive of any tree, in ustar form, with pax or long-name headings where wanted, in any order, with or without its root and the directories its files imply, is accepted and is that tree |
| TarRefusal.ArchivesAreJudgedExactly | src/updater/adapters/archive.ts:43-151 | an archive of any members, with or without headings, is accepted if and only if it is not empty, has at most 50,000 members, every path is safe, every file has a name, no name comes twice, and no file is where another entry is or hangs on it |
| TarRefusal.SafeExactly | src/updater/adapters/archive.ts:105-114 | the paths refused are just the absolute ones, those on a drive, those that climb, and those with a backslash or a NUL |
| TarRefusal.PathsAreTheirParts | src/updater/adapters/archive.ts:115-119 | a path names what its pieces name; empty pieces and single dots stand for nothing |
| TarRefusal.AttributesAreReadExactly | src/updater/adapters/archive.ts:83-97 | pax attributes are read if and only if each is a path or a time on one line; the last path counts |
| TarRefusal.AttributeIsWritten | src/updater/adapters/archive.ts:90-91 | only lines of a number, a key and a value are read as attributes |
| TarRefusal.UnitsAreUtf16 | src/updater/adapters/archive.ts:84-89 | the length that is limited is the length of the decoded text in UTF-16 |
| TarRefusal.LineEndsArePoints | src/updater/adapters/archive.ts:90-91 | a value goes past the end of a line if and only if its text has a carriage return, U+2028 or U+2029 |
| TarRefusal.NumbersAreRead | src/updater/adapters/archive.ts:35-42 | a number is its octal digits, whatever spaces precede them, up to the next space |
| TarRefusal.NumbersAreReadExactly | src/updater/adapters/archive.ts:35-42 | a number field is read if and only if it has only octal digits and spaces |
| TarRefusal.DamagedHeaderIsRefused | src/updater/adapters/archive.ts:58-65 | whatever byte of a header is changed, outside its checksum, the archive is refused there |
| TarRefusal.TooManyAreRefused | src/updater/adapters/archive.ts:68-75 | an archive of more than 50,000 members is refused |
| TarRefusal.BlocksAreLeast | src/updater/adapters/archive.ts:77-77 | the next header begins at the first multiple of 512 behind the content |
| TarFormat.ExecutableBits | src/updater/adapters/archive.ts:138-138 | a file is executable when its owner, its group or anyone else may execute it |

## Left out

- Docker, systemd, process locks, HTTP and IPC servers, health polling and the Compose adapter: they appear as adapter contracts, where an action may fail before, during or after its effect.
- UpdateAdapters.LinuxDeployment.Verify: health is an oracle, and that services are up when they may run is what `UpdateHost.Host.AwaitServices` takes from the service manager; fault-free progress after a power loss relies on it.
- Services that wait at the fence are modelled as not started yet; the release they will run is the one linked when the fence lets them go.
- Database clients, grants and DDL: the database is one value with backup, validation and restore.
- The plan is assumed consistent: a component that is not updated has its current version as target.
- A power loss between two jobs whose saves both failed to sync: the single unfinished job is stated for process crashes.
- UpdateControl.Control.Accept: reading all job files is one step; that a waiting call gets its turn in time is not stated, only that nothing blocks it.
- Web client sessions are values in a map under their guid, which is never reused, in place of shared objects; the channels of the gateway likewise.
- A channel whose call failed is stopped by a step of its own, at any later time; close codes, buffers, handshake timers and channel limits are not modelled, a failed send is an argument.
- Browser event reports, ownership checks of the HTTP endpoints and the content of audit records.
- Decoding of text: strings are their UTF-8 bytes and decoding is injective on well-formed ones; malformed UTF-8 in archives is not modelled.
- JSON parsing and the stream decoder are given functions in the event model; lone CR line ends are outside it, as they are outside the code.
- Reconnects, freshness and the live view kept from server events.
- Writers that bypass the strategy cache (system information reports, device and user deletion), and lookups that overlap an invalidation: each operation is atomic.
- Strategies, users and groups are addressed by identifier where device edits look them up by name.
- File system syncs, free-space checks, timestamps and ownership in quarantine; a recursive copy or removal is the sequence of its single calls.
- File types a scan refuses are one special kind of node; file names are well-formed UTF-16, and in the manifest everything but the file entries is a number of bytes. Database files of a snapshot and its hashes are taken as right.
- Gzip, and the free-space check before extraction.
- Dashboards, paging queries, other services, migrations and installers: they would only add easy members.
