# Cogiens harness gateway: a verified model

The gateway fans one Job out to many Runs, drives each Run through an adapter session, saves a
snapshot of the Job after every change, accepts cancellations at any moment and repairs interrupted
work after a restart. This project models that engine, the three adapters that run sessions, the
event and redaction rules they share, and the evidence-gated registry, and proves what they promise
over every interleaving.

## How it is built

Code between two awaits is one step. Each concurrent part is written twice:

* a **step system** on values: a state, actions that name the suspended frame that resumes and the
  answer it gets from outside, a total function `Next` and its iteration `Exec`. A step that is not
  enabled leaves the state alone, so every sequence of actions is a schedule and a statement about
  `Exec(Init(..), actions)` is a statement about every reachable state;
* a **class** with the fields the source mutates, whose methods are the code between two awaits.
  `View()` projects the fields and the suspended frames to the step system, and each method that
  stands for a resumption ensures that the view moves by exactly one `Next`. A ghost `history`
  records those steps; `Valid()`, which the constructor establishes and every such method keeps,
  says that the view is where `Exec` leads from the initial state along that history. The theorems
  about `Exec` are therefore theorems about every object, and the main ones are stated again as
  lemmas of the objects. Methods that do part of a step keep only `Coherent()`.

| file | content |
|---|---|
| PersistQueue, WorkerPool | the per-job promise chain of `#persist`; `mapLimit` |
| GatewayModel, GatewayInvariant | the step system of one job; its invariant |
| GatewayTheorems, GatewaySessions | what is promised of a whole job |
| GatewayEdges, GatewayFinality, GatewayAbsorption | schedules that break naive claims; when a run is final, exactly |
| GatewayWrites, GatewayProgress, GatewayRestarts | a pending write can land; a verdict can be reached; what outlives every restart, exactly |
| GatewayOutcome, GatewayDurable, GatewayCancel | what becomes of a run, read from what its frame heard; what is on disk before it goes on; what cancels reach |
| GatewayRuntime, Recovery | the object with its shared maps; loading and repair |
| Events, Histories | event numbering, the stream checker; reading a history |
| ChildProcess, ProcessModel, ProcessTheorems, ProcessStreams, ProcessSession | one-shot process adapter |
| MockModel, MockTheorems, MockStreams, MockSession | mock adapter |
| LocalModel, LocalTheorems, LocalStreams, LocalSession | local-model adapter |
| AdapterContract | what the gateway records of whole adapter streams |
| Redaction, RedactionProofs, RedactionMeaning, Artifacts | the seven patterns, idempotence, what is kept, artifact integrity |
| SupportLadder, FederationRegistry | support transitions; document, passport, index |

`GatewayOutcome.Story` is the history of one run of the gateway in the same spirit: the answers its
frame was given, from which its whole record follows without looking at the frame.

`notes` in an adapter state is the history of what happened to the session; nothing the adapter
does depends on it. It lets an outcome be stated by a reference table over the history
(`Expected`, `Verdict`) that knows nothing of the generator's program counter.

## Results that correct a first reading

* A run marked CANCELLED by `cancelJob` while its health check, its STARTING write or its session
  is awaited can go on to STARTING or RUNNING (`WindowMarkIsOverwritten`). `MarkStays` says exactly
  which marks stay, and `TerminalStateStays` exactly when any terminal state does. A run whose
  frame returned normally is final for ever, restarts included (`DoneRunNeverChanges`);
  `TerminalStateSurvivesRestarts` is the exact condition for any terminal state.
* A job committed FAILED because one run's frame threw goes on working: another run may still
  succeed under the FAILED status (`FailedJobGainsSuccess`). Only its returned runs are fixed.
* The repair after a restart writes to the name made of the job id. It survives every crash when
  each file is named after its job (`RepairSurvivesCrash`), as the gateway's own files are; a file
  under another name is repaired into the job's own file at every start (`CopyReplacesJob`), and a
  load repairs everything exactly when no file is misnamed so (`RepairIsComplete`).
* A cancel snapshot taken between the commit write and the assignment of the verdict lands after it
  and a restart reports FAILED (`WindowWriteLosesVerdict`). `ReloadKeepsVerdict` is the exact
  condition for a restart at once, `VerdictSurvivesRestarts` and `VerdictLasts` for every later
  schedule.
* A cancel that arrives after the outcome was decided is answered as cancelled and the run still
  succeeds, in all three adapters (`LateCancelStillSucceeds`); the outcome theorems say which
  cancels do decide. The local-model adapter also loses a cancel that arrives before the run began
  (`EarlyCancelStillSucceeds`, `CancelBeforeStartIsLost`).
* A process-backed session that is closed between `run.started` and the spawn spawns its child all
  the same, and nothing cancels it (`ClosedSessionStillSpawns`); closed before, it never begins.
* The local-model adapter never reports `run.timed_out`: its own timer aborts the same signal as a
  cancel (`LocalTheorems.RunOutcome`). The adapter contract document lists `run.timed_out` for
  timeouts; the model follows the code.
* The adapter contract document forbids marking a run CANCELLED before the adapter confirms;
  `cancelJob` marks every run that is not yet active at once. The model follows the code.
* `deprecated_status_is_terminal` is the code's message, yet a deprecated harness can be blocked
  and then declared again (`DeprecatedCanReturn`); `DeprecatedLeavesByBlocking` is the exact
  condition.
* A configured concurrency cap below one resolves the pool at once with every run QUEUED
  (`NoWorkerStrandsEveryRun`, `ConfiguredCapDecides`).
* The integrity check of the conformance kit rejects a fresh artifact exactly when redaction
  changed its text, hash collisions between the two aside (`IntegrityNeedsCleanText`).

## Model

| member | source | states |
|---|---|---|
| `PersistQueue.RefinesAtomicLog` | packages/gateway-core/src/runtime.mjs:318-333 | over every order of calls, writes, failures and returns the disk is the newest successful snapshot in call order, renames happen in call order, each write waits for its predecessor, and an absent map entry leaves no unsettled write behind |
| `PersistQueue.SnapshotsAreFixed` | packages/gateway-core/src/runtime.mjs:320-326 | a snapshot is the record as it was at the call and a settled write stays settled, whatever happens later |
| `PersistQueue.OneWriteInFlight` | packages/gateway-core/src/runtime.mjs:321-326 | at most one write of a job is between its start and its settlement |
| `PersistQueue.FirstUnsettledMoves` | packages/gateway-core/src/runtime.mjs:322-326 | failed writes do not block: the first unsettled write can always move and each move shortens the remaining work |
| `PersistQueue.LandsIfAnsweredWell` | packages/gateway-core/src/runtime.mjs:322-326 | over every order of calls, answers and returns a write lands if and only if the file system answered it twice, both times well, and is lost if and only if it once answered with a failure |
| `PersistQueue.NextCurrent` | packages/gateway-core/src/runtime.mjs:318-333 | every step keeps the disk equal to the newest landed snapshot |
| `WorkerPool.ExecValid` | packages/gateway-core/src/runtime.mjs:388-397 | in every interleaving each claimed item is done or held by exactly one worker, and no worker retires while items are unclaimed |
| `WorkerPool.BoundedPool` | packages/gateway-core/src/runtime.mjs:388-397 | the claims are exactly the prefix below the counter, each once; there are min(limit, items) workers, none for a negative limit, and no more tasks at a time |
| `WorkerPool.ResolvedMeansDone` | packages/gateway-core/src/runtime.mjs:388-397 | when all workers resolve every item is done, if and only if the limit is at least one or there are no items |
| `WorkerPool.StepsTerminate` | packages/gateway-core/src/runtime.mjs:388-397 | every effective step lowers a non-negative measure |
| `GatewayInvariant.NextInv` | packages/gateway-core/src/runtime.mjs:101-333 | every step of runs, workers, executor, cancels, file system and restart keeps the invariant of a job |
| `GatewayInvariant.Reachable` | packages/gateway-core/src/runtime.mjs:62-333 | every schedule of every job with at least one run and one worker stays within the invariant |
| `GatewaySessions.VerdictsAreDurable` | packages/gateway-core/src/runtime.mjs:188-192 | for every number of runs and every limit, a final status shown without persistence_error has already been renamed onto disk in some snapshot, with a crash possible at any point (also lines 107-119) |
| `GatewayTheorems.ResolvedMeansTerminal` | packages/gateway-core/src/runtime.mjs:168-267 | when the pool resolves every run is terminal and none is active, for arbitrary adapters and cancels |
| `GatewaySessions.VerdictFollowsPolicy` | packages/gateway-core/src/runtime.mjs:170-192 | in every reachable state with a chosen or published verdict its snapshot is COMPLETED iff all its runs SUCCEEDED, PARTIAL iff some did and some did not, CANCELLED iff none did, one was CANCELLED and the job was cancelled, FAILED iff none of these |
| `GatewaySessions.EngineErrorHasCause` | packages/gateway-core/src/runtime.mjs:107-118 | a job carries an engine error only if a worker was rejected by a thrown frame or its verdict could not be saved; it says that saving failed only if the report of that error could not be saved either, and else that report has landed (also lines 168-192, 312-316) |
| `GatewayFinality.DoneRunNeverChanges` | packages/gateway-core/src/runtime.mjs:195-267 | a run whose executeRun has returned never changes again, by itself and while other workers go on: not by cancels, late answers, failed writes, the commit, crashes or restarts (also lines 128-166, 276-305) |
| `GatewayFinality.ResolvedRunsNeverChange` | packages/gateway-core/src/runtime.mjs:128-166 | once the pool has resolved nothing changes any run, with crashes and restarts before, during or after the commit, and also when the commit fails (also lines 107-119, 168-192, 276-305) |
| `GatewayFinality.ReturnedRunKept` | packages/gateway-core/src/runtime.mjs:195-267 | while the process lives a terminal run of any returned frame keeps its record, also when the frame threw |
| `GatewayAbsorption.TerminalStateStays` | packages/gateway-core/src/runtime.mjs:195-275 | in every reachable state, for every single run: its terminal state outlives every schedule without a restart if and only if its frame is neither between the cancel check and the session nor in the stream, except where a write that already failed, or a FAILED state with only the catch block or the artifacts ahead, leaves nothing that could replace it |
| `GatewayRestarts.TerminalStateSurvivesRestarts` | packages/gateway-core/src/runtime.mjs:276-310 | for every reachable moment and every run in a terminal state: every later schedule, crashes and restarts included, leaves it there if and only if its frame stands where it cannot leave and the file and every unsettled snapshot would be loaded with that state (also lines 121-166, 194-267, 318-333) |
| `GatewayRestarts.VerdictLasts` | packages/gateway-core/src/runtime.mjs:276-310 | a verdict shown at any moment, published, failed or reloaded, is shown after every later schedule, restarts included, if and only if the file and every unsettled snapshot would be loaded with it (also lines 107-119, 168-192, 312-333) |
| `GatewayRestarts.VerdictSurvivesRestarts` | packages/gateway-core/src/runtime.mjs:312-316 | a published verdict survives every later schedule if and only if it is FAILED, or the file shows it and every write enqueued between commit and assignment has settled; with no such write it always does (also lines 188-192, 276-333) |
| `GatewayRestarts.RestartReadsFile` | packages/gateway-core/src/runtime.mjs:276-310 | a restart at any moment: from a file it reads the job, active runs FAILED with GATEWAY_RESTARTED, everything else kept, every frame and session gone, and the job is written back if and only if it was interrupted; without a file it finds nothing |
| `GatewayProgress.VerdictIsReachable` | packages/gateway-core/src/runtime.mjs:168-267 | from every reachable state some continuation without a restart shows a verdict if and only if the submission has not failed, and then one in which no client calls, no write fails and no adapter throws (also lines 102-119, 312-333, 388-397) |
| `GatewayOutcome.RunFollowsStory` | packages/gateway-core/src/runtime.mjs:194-275 | for every schedule and every run: its state, events, artifacts and error, its health checks, its session and startRun, and where its frame stands, are the reading of what the frame heard (claim, health, session, writes, stream, artifacts, close), in order |
| `GatewayOutcome.RunOutcome` | packages/gateway-core/src/runtime.mjs:194-275 | a run whose frame is gone shows the first error it met; or CANCELLED, if the job was cancelled when it was claimed; or what its last outcome event named, with stream and artifacts read to their end; the frame threw exactly if something threw that nothing catches |
| `GatewayOutcome.UnhealthyRunIsRefused` | packages/gateway-core/src/runtime.mjs:207-210 | after an unhealthy answer the run is FAILED with ADAPTER_UNHEALTHY in every continuation of the process, and has no session |
| `GatewayOutcome.DisabledRunIsRefused` | packages/gateway-core/src/runtime.mjs:203-206 | a run claimed for a disabled adapter while nobody had cancelled: the same, with no health check |
| `GatewayOutcome.SessionNeedsHealth` | packages/gateway-core/src/runtime.mjs:207-243 | a session exists only for a run whose health check answered healthy, whose STARTING snapshot was saved and whose createSession returned |
| `GatewayOutcome.ArtifactsAreKept` | packages/gateway-core/src/runtime.mjs:251-253 | a run holds an artifact if and only if its adapter delivered it, each once |
| `GatewayDurable.StepsAreSavedFirst` | packages/gateway-core/src/runtime.mjs:194-275 | in every schedule each awaited write carries what the frame has just done; no session before STARTING is on disk, no stream before RUNNING is, no further event and no artifact before the events so far are, and no run claimed before the job is (also lines 101-102) |
| `GatewayDurable.SnapshotsAreTheJob` | packages/gateway-core/src/runtime.mjs:312-320 | in every state, whatever step is taken: the write it enqueues is the job as the step left it, or for a commit the job with the chosen verdict, or with the report that the engine failed, and nothing else changed |
| `GatewayCancel.AnswerGoesOn` | packages/gateway-core/src/runtime.mjs:135-149 | the answer about run i is noted there if it threw, and the loop goes on with run i + 1: every run up to the next active one that is not terminal was terminal or is now CANCELLED, that one is asked, or the job is saved; nothing else changes |
| `GatewayCancel.AnswerPassesNoRun` | packages/gateway-core/src/runtime.mjs:135-149 | when the answer about one run arrives every later run is terminal, or the call waits for an adapter at that run or before it |
| `GatewayCancel.CancelJobReachesEveryRun` | packages/gateway-core/src/runtime.mjs:128-151 | for every cancelJob in every reachable state and every continuation of the process: when the call has come to its write, each run was terminal at some moment since or its adapter was asked; when it returns, a snapshot with the request has settled |
| `GatewayCancel.CancelRunIsSaved` | packages/gateway-core/src/runtime.mjs:153-166 | a cancelRun asks the adapter of an active run once and flags the run for good; it returns only once a snapshot with the flag has settled, unless the adapter threw; without an active session it does nothing |
| `GatewayCancel.RunAnswerSaves` | packages/gateway-core/src/runtime.mjs:163-165 | the answer to a cancelRun: the job is saved as it is then, or a thrown error goes straight to the caller and nothing is saved |
| `GatewayCancel.FlagsFollowCalls` | packages/gateway-core/src/runtime.mjs:128-166 | the cancel flags of job and runs and the cancel errors of runs show exactly the calls that were made and the answers that threw |
| `GatewayTheorems.NoInventedSuccess` | packages/gateway-core/src/runtime.mjs:245-275 | in memory and on disk a SUCCEEDED run ends its recorded stream's terminal events with run.succeeded; COMPLETED means all, PARTIAL some but not all, CANCELLED and plain FAILED none (also lines 168-193) |
| `GatewayTheorems.TerminalEventSticks` | packages/gateway-core/src/runtime.mjs:245-258 | with an adapter that stops at its terminal event the state it gave stays, or becomes FAILED |
| `GatewaySessions.SessionsAreBracketed` | packages/gateway-core/src/runtime.mjs:215-266 | activeRuns holds a run exactly while its frame has a session that is not closed, never once the frame is gone; startRun and close at most once per session, and adapter.cancel never after close (also lines 137-140, 157-163) |
| `GatewaySessions.BoundedConcurrency` | packages/gateway-core/src/runtime.mjs:169 | a job never has more than maxConcurrency entries in activeRuns (also lines 242, 260, 359) |
| `GatewaySessions.CancelRequestSticks` | packages/gateway-core/src/runtime.mjs:131 | cancel_requested never reverts while the process lives |
| `GatewaySessions.CancelledBeforeItStarts` | packages/gateway-core/src/runtime.mjs:128-151 | a run not begun when cancelJob lands never sees health, createSession or startRun, and is CANCELLED from the moment it is claimed (also lines 195-201) |
| `GatewaySessions.CancelledJobVerdict` | packages/gateway-core/src/runtime.mjs:128-151 | cancelled before any run was claimed: no adapter is contacted and unless saving fails the verdict is CANCELLED (also lines 168-201) |
| `GatewaySessions.DiskIsNewest` | packages/gateway-core/src/runtime.mjs:318-333 | in every schedule, across restarts, the file is the newest snapshot whose write succeeded |
| `GatewayEdges.NoWorkerStrandsEveryRun` | packages/gateway-core/src/runtime.mjs:388-397 | with a limit below one the job is settled FAILED with every run still QUEUED (also lines 168-187) |
| `GatewayEdges.ConfiguredCapDecides` | packages/gateway-core/src/runtime.mjs:383-386 | whatever a client asks for, a resolved pool means terminal runs in every schedule if and only if the configured cap is absent or at least one (also lines 168-187, 359, 388-397) |
| `GatewayEdges.RequestedLimitHolds` | packages/gateway-core/src/runtime.mjs:359 | with a cap of at least one the limit is the one nearest to the request, or the cap without a request; no more sessions are ever active, and never more than asked for (also lines 169, 383-386) |
| `GatewayEdges.ReloadKeepsVerdict` | packages/gateway-core/src/runtime.mjs:312-316 | a restart shows the published verdict if and only if it is FAILED or the newest landed write was not enqueued between commit and assignment (also lines 149, 164, 276-305) |
| `GatewayEdges.WindowWriteLosesVerdict` | packages/gateway-core/src/runtime.mjs:312-316 | a concrete schedule in which a published CANCELLED becomes FAILED after a restart (also lines 149) |
| `GatewayEdges.WindowMarkIsOverwritten` | packages/gateway-core/src/runtime.mjs:203-213 | in every reachable state, with no active run before it, a run awaiting its health check is marked CANCELLED by cancelJob and then overwritten by STARTING (also lines 135-148) |
| `GatewayAbsorption.MarkStays` | packages/gateway-core/src/runtime.mjs:135-148 | the mark that a first or resumed sweep of cancelJob sets stays if and only if the run was not claimed, its frame had thrown, or its STARTING snapshot had failed; otherwise, at health, the STARTING write or createSession, some schedule overwrites it (also lines 203-242) |
| `GatewayEdges.FailedJobGainsSuccess` | packages/gateway-core/src/runtime.mjs:107-118 | a schedule in which a job committed FAILED by a thrown health check later shows a SUCCEEDED run (also lines 207, 388-397) |
| `Recovery.LoadedIsRepaired` | packages/gateway-core/src/runtime.mjs:276-310 | whatever the file names, their order and the failed writes: no loaded job is RUNNING, no loaded run active; other runs and the flags of the job keep every field; an interrupted job is FAILED and marked recovered, any other is exactly as saved |
| `Recovery.RepairSurvivesCrash` | packages/gateway-core/src/runtime.mjs:276-310 | with every file named after its job, any interrupted load, any of its writes failing, leaves a directory from which the next load finds the same jobs as from the original (also line 319) |
| `Recovery.RepairIsComplete` | packages/gateway-core/src/runtime.mjs:276-310 | for every directory, whatever its names and the order they are read in: a full load with successful writes leaves nothing to repair if and only if each file that needed repair is named after the job it holds (also line 319) |
| `Recovery.CleanLoadWritesNothing` | packages/gateway-core/src/runtime.mjs:297-305 | a directory with nothing to repair is loaded without a write |
| `Recovery.CopyReplacesJob` | packages/gateway-core/src/runtime.mjs:281-305 | a stray copy of an earlier snapshot, read first, replaces a finished job's file, shows the job FAILED, and is repaired again at every load (also line 319) |
| `Recovery.RepairJob` | packages/gateway-core/src/runtime.mjs:283-303 | the in-place loop computes the repair and reports exactly whether one was needed |
| `Recovery.LoadPersistedJobs` | packages/gateway-core/src/runtime.mjs:276-310 | the loop reads each file as it is then, writes a repair to the name made of the job id before it reads the next, and keeps the job when that write fails |
| `GatewayRuntime.GatewayRuntime.SubmitFanout` | packages/gateway-core/src/runtime.mjs:70-106 | under a fresh id, in any valid object, a job is registered as the initial state of its step system with an empty history, other jobs untouched |
| `GatewayRuntime.GatewayRuntime.SubmitReturned` | packages/gateway-core/src/runtime.mjs:106-107 | the first snapshot came back: start the pool, or fail the submission |
| `GatewayRuntime.GatewayRuntime.WorkerResumed` | packages/gateway-core/src/runtime.mjs:390-396 | a worker resumes after its task exactly as the step system says |
| `GatewayRuntime.GatewayRuntime.PoolSettled` | packages/gateway-core/src/runtime.mjs:169-192 | the verdict is computed from the runs and enqueued, or the failure commit begins |
| `GatewayRuntime.GatewayRuntime.CommitReturned` | packages/gateway-core/src/runtime.mjs:312-316 | the verdict reaches the live job only after its snapshot landed (also lines 107-119) |
| `GatewayRuntime.GatewayRuntime.HealthReturned` | packages/gateway-core/src/runtime.mjs:207-214 | healthy, unhealthy and throwing health checks |
| `GatewayRuntime.GatewayRuntime.SessionReturned` | packages/gateway-core/src/runtime.mjs:218-243 | the session enters activeRuns with RUNNING, or the catch block runs (also lines 257-258) |
| `GatewayRuntime.GatewayRuntime.StreamReturned` | packages/gateway-core/src/runtime.mjs:245-258 | next event, end of stream, or throw |
| `GatewayRuntime.GatewayRuntime.IteratorReturned` | packages/gateway-core/src/runtime.mjs:245-258 | after a failed save the iterator is closed before the catch block |
| `GatewayRuntime.GatewayRuntime.ArtifactReturned` | packages/gateway-core/src/runtime.mjs:251-258 | artifacts are kept once each; a stream left open is a protocol mismatch |
| `GatewayRuntime.GatewayRuntime.CloseReturned` | packages/gateway-core/src/runtime.mjs:261-265 | close answered or threw: go on to the last snapshot |
| `GatewayRuntime.GatewayRuntime.PersistReturned` | packages/gateway-core/src/runtime.mjs:195-274 | each of the seven awaited writes of a run resumes, or throws into the right handler |
| `GatewayRuntime.GatewayRuntime.SweepLoop` | packages/gateway-core/src/runtime.mjs:135-148 | the loop marks runs neither terminal nor active as CANCELLED and stops at the first active run that is not terminal |
| `GatewayRuntime.GatewayRuntime.StartCancellingJob` | packages/gateway-core/src/runtime.mjs:128-149 | cancelJob up to its first await |
| `GatewayRuntime.GatewayRuntime.StartCancellingRun` | packages/gateway-core/src/runtime.mjs:153-163 | cancelRun up to its first await; without an active session nothing happens |
| `GatewayRuntime.GatewayRuntime.CancelAnswered` | packages/gateway-core/src/runtime.mjs:139-151 | every way a cancelJob or cancelRun frame resumes (also lines 163-165) |
| `GatewayRuntime.GatewayRuntime.DiskWrites` | packages/gateway-core/src/runtime.mjs:322-326 | temporary write, then rename; either may fail |
| `GatewayRuntime.GatewayRuntime.WriteReturned` | packages/gateway-core/src/runtime.mjs:328-332 | the map entry is deleted only if it is still this write |
| `GatewayRuntime.GatewayRuntime.RestartFrom` | packages/gateway-core/src/runtime.mjs:276-310 | from any valid object, after a crash, exactly the jobs on disk are loaded, each one restart further in its history (also lines 27-32) |
| `GatewayRuntime.GatewayRuntime.VerdictsAreDurable` | packages/gateway-core/src/runtime.mjs:188-192 | in every valid object a verdict shown is in a landed write of that job, unless it says saving failed (also lines 107-119) |
| `GatewayRuntime.GatewayRuntime.SessionsAreBracketed` | packages/gateway-core/src/runtime.mjs:215-266 | in every valid object activeRuns holds exactly the runs whose frame has a session that is not closed, none of a frame that is gone; sessions are started and closed at most once and never cancelled after that |
| `GatewayRuntime.GatewayRuntime.BoundedConcurrency` | packages/gateway-core/src/runtime.mjs:242-260 | in every valid object activeRuns holds at most the job's limit of its sessions |
| `GatewayRuntime.GatewayRuntime.NoInventedSuccess` | packages/gateway-core/src/runtime.mjs:245-250 | in every valid object, in jobs and on disk, a SUCCEEDED run has run.succeeded as its last terminal event, and COMPLETED says so of all runs (also lines 168-193) |
| `GatewayRuntime.GatewayRuntime.ReturnedRunsNeverChange` | packages/gateway-core/src/runtime.mjs:195-267 | between any two moments of one object, whatever methods, crashes and restarts lie between, a run that had returned is unchanged |
| `GatewayRuntime.GatewayRuntime.VerdictFollowsPolicy` | packages/gateway-core/src/runtime.mjs:170-192 | in every valid object the verdict chosen for a job is the one the policy names for the runs in its snapshot |
| `GatewayRuntime.GatewayRuntime.RunFollowsStory` | packages/gateway-core/src/runtime.mjs:194-275 | in every valid object what is shown of a run, and what its adapter saw, is the reading of what its frame heard |
| `Events.EventFactory.Make` | packages/adapter-sdk/src/index.mjs:148-163 | each call numbers one event, with the five identities, one past the last |
| `Events.CreateEventFactory` | packages/adapter-sdk/src/index.mjs:140-147 | a factory is made if and only if all five identities are non-empty |
| `Events.AssertMonotonicEvents` | packages/conformance-kit/src/index.mjs:10-20 | the loop accepts exactly the non-empty streams numbered from one without repeated ids |
| `Events.AssertSingleTerminalEvent` | packages/conformance-kit/src/index.mjs:22-27 | it returns an event if and only if that is the only terminal one and of the expected type |
| `Events.GoodStreamsPass` | packages/conformance-kit/src/index.mjs:10-27 | numbered streams that end in their only terminal event pass both checks |
| `ChildProcess.OutputCap` | adapters/process/src/one-shot-process-adapter.mjs:319-329 | for every sequence of chunks the retained ones are the longest arriving prefix that fits, per stream in order; the flag holds if and only if the total exceeds the cap; at most cap bytes are kept |
| `ChildProcess.RunChild.OnData` | adapters/process/src/one-shot-process-adapter.mjs:319-329 | one chunk is collected, or marks the overflow |
| `ChildProcess.RunChild.OnTimeout` | adapters/process/src/one-shot-process-adapter.mjs:314-317 | the timer marks the timeout and touches nothing else |
| `ChildProcess.RunChild.OnError` | adapters/process/src/one-shot-process-adapter.mjs:332 | a spawn error is remembered and touches nothing else |
| `ChildProcess.RunChild.OnClose` | adapters/process/src/one-shot-process-adapter.mjs:333-338 | the first close settles the promise with what was gathered; later ones do nothing |
| `ChildProcess.RunChild.Capped` | adapters/process/src/one-shot-process-adapter.mjs:296-342 | in every order of callbacks the live variables obey the cap |
| `ProcessTheorems.NextKeeps` | adapters/process/src/one-shot-process-adapter.mjs:145-279 | every step keeps: emitted prefix, child equal to its history, flags equal to the history, verdict equal to the table, confirmed answers honest |
| `ProcessTheorems.RunOutcome` | adapters/process/src/one-shot-process-adapter.mjs:145-245 | a fully consumed stream has one exit, one observation and one terminal event, which is last, matches state.terminal and follows cancel > timeout > overflow > spawn error > parse > exit code |
| `ProcessTheorems.HonestCancellation` | adapters/process/src/one-shot-process-adapter.mjs:247-255 | cancel answers confirmed, also when already terminal or called by close, only when the child has emitted close (also lines 174-189, 274-279, 333-338) |
| `ProcessTheorems.StreamPasses` | adapters/process/src/one-shot-process-adapter.mjs:145-245 | every fully consumed stream passes the checker and carries the session's identities |
| `ProcessTheorems.VerdictWithoutEvent` | adapters/process/src/one-shot-process-adapter.mjs:209-230 | a generator that threw has stored a verdict without yielding it if and only if parseOutput gave no object and the exit code was not zero |
| `ProcessTheorems.VerdictWithoutEventHappens` | adapters/process/src/one-shot-process-adapter.mjs:221-224 | a schedule, with exit code 1 and no object from parseOutput, that stores run.failed and throws with only run.started yielded |
| `ProcessTheorems.LateCancelStillSucceeds` | adapters/process/src/one-shot-process-adapter.mjs:233-255 | a schedule where cancel answers cancelled and confirmed and the run succeeds |
| `ProcessStreams.StreamIsWhole` | adapters/process/src/one-shot-process-adapter.mjs:145-245 | a fully consumed stream is run.started and the failure, or run.started, message, one artifact, usage exactly if reported, run.succeeded: in this order, nothing else |
| `ProcessStreams.CallsAnswerTruly` | adapters/process/src/one-shot-process-adapter.mjs:247-255 | in every reachable state each answer says that it cancelled or that the run was over, never both, the second only with a verdict; a call awaiting the exit answers cancelled and confirmed once the child has emitted close (also lines 274-279) |
| `ProcessStreams.ClosedNeverBegins` | adapters/process/src/one-shot-process-adapter.mjs:145-149 | a session closed before its run began never yields an event and never spawns a child |
| `ProcessStreams.CloseCancelsFirst` | adapters/process/src/one-shot-process-adapter.mjs:274-279 | close of a run that has begun and has no verdict cancels it first and marks the session only afterwards; any other session is marked at once |
| `ProcessStreams.ClosedSessionStillSpawns` | adapters/process/src/one-shot-process-adapter.mjs:145-184 | a schedule in which a session closed between run.started and the spawn spawns its child all the same (also lines 274-279) |
| `ProcessSession.OneShotSession.Pull` | adapters/process/src/one-shot-process-adapter.mjs:145-184 | a pull moves the session by one step and returns the event it appended (also lines 233-245) |
| `ProcessSession.OneShotSession.ResumeExit` | adapters/process/src/one-shot-process-adapter.mjs:184-211 | the observed flags are tested in their order |
| `ProcessSession.OneShotSession.ResumeParse` | adapters/process/src/one-shot-process-adapter.mjs:209-234 | throw, missing object, failure and success of parseOutput |
| `ProcessSession.OneShotSession.ChunkArrived` | adapters/process/src/one-shot-process-adapter.mjs:319-331 | output of a live child is collected and recorded |
| `ProcessSession.OneShotSession.TimerFired` | adapters/process/src/one-shot-process-adapter.mjs:314-317 | only a live child times out |
| `ProcessSession.OneShotSession.ErrorEmitted` | adapters/process/src/one-shot-process-adapter.mjs:332 | a live child's error is kept for the outcome |
| `ProcessSession.OneShotSession.ChildClosed` | adapters/process/src/one-shot-process-adapter.mjs:333-338 | the child's exit settles the outcome once |
| `ProcessSession.OneShotSession.Cancel` | adapters/process/src/one-shot-process-adapter.mjs:247-255 | a client's cancel is one step |
| `ProcessSession.OneShotSession.Close` | adapters/process/src/one-shot-process-adapter.mjs:274-279 | close cancels a run that is not over before it marks the session |
| `ProcessSession.OneShotSession.ResumeCall` | adapters/process/src/one-shot-process-adapter.mjs:252-254 | a call answers confirmed from the exit it awaited; close marks the session after its cancel (also lines 276-278) |
| `ProcessSession.OneShotSession.RunOutcome` | adapters/process/src/one-shot-process-adapter.mjs:145-245 | every session object whose run was consumed ended in one terminal event that follows from its one exit and the moment it was observed |
| `ProcessSession.OneShotSession.HonestCancellation` | adapters/process/src/one-shot-process-adapter.mjs:247-255 | in every session object, whatever was answered as confirmed, the child has emitted close (also lines 274-279) |
| `MockTheorems.NextKeeps` | adapters/mock/src/index.mjs:87-245 | every step keeps: stream shape, flags and deferred equal to the history, standing of the generator, results guarded |
| `MockTheorems.RunOutcome` | adapters/mock/src/index.mjs:96-186 | a fully consumed stream ends in its one terminal event, equal to the reference outcome of who won the race, the hold and the last check; a cancelled run was cancelled by somebody |
| `MockTheorems.FailClosed` | adapters/mock/src/index.mjs:106-153 | on an approval prompt no part of a result leaves unless the first accepted decision was approve (also lines 188-205) |
| `MockTheorems.CancelBeforeCheckWins` | adapters/mock/src/index.mjs:164-186 | no part of a result leaves unless the last check was passed and no cancel was accepted before it (also lines 216-225) |
| `MockTheorems.SecondDecisionIsInert` | adapters/mock/src/index.mjs:188-205 | after an accepted decision a further one changes nothing, now or in any continuation |
| `MockTheorems.StreamPasses` | adapters/mock/src/index.mjs:96-186 | every fully consumed stream passes the checker and carries the session's identities |
| `MockTheorems.LateCancelStillSucceeds` | adapters/mock/src/index.mjs:171-185 | a schedule where a cancel accepted after the check does not stop run.succeeded |
| `MockStreams.StreamIsWhole` | adapters/mock/src/index.mjs:96-186 | a fully consumed stream, event by event: the approval as it was decided if the prompt asks for one, then the hold, the cancellation or the whole result; and the decision filed on the approval |
| `MockStreams.SteeringIsKept` | adapters/mock/src/index.mjs:207-214 | every instruction accepted while there was no verdict is kept, in order, and no other |
| `MockStreams.DecisionNeedsItsApproval` | adapters/mock/src/index.mjs:188-205 | a decision changes anything if and only if an approval is open, it is for that one, and it is approve or deny |
| `MockStreams.CloseCancelsFirst` | adapters/mock/src/index.mjs:240-245 | close of a started run without a verdict cancels it first and marks the session only afterwards; any other session is marked at once |
| `MockStreams.ClosedNeverBegins` | adapters/mock/src/index.mjs:87-94 | a session closed before a run was started never yields an event |
| `MockSession.MockSession.StartRun` | adapters/mock/src/index.mjs:87-94 | the three refusals in their order, otherwise the run is started |
| `MockSession.MockSession.Pull` | adapters/mock/src/index.mjs:96-186 | a pull moves the session by one step and returns the event it appended |
| `MockSession.MockSession.ResumeRace` | adapters/mock/src/index.mjs:132-144 | the winner of the race decides what is yielded |
| `MockSession.MockSession.ResumeHold` | adapters/mock/src/index.mjs:157-158 | a held run goes on only when cancelled |
| `MockSession.MockSession.DecideApproval` | adapters/mock/src/index.mjs:188-205 | accepted if and only if it matches the open approval and is approve or deny; only the first sets the deferred |
| `MockSession.MockSession.Steer` | adapters/mock/src/index.mjs:207-214 | refused on a terminal run or without text, otherwise kept |
| `MockSession.MockSession.Cancel` | adapters/mock/src/index.mjs:216-225 | already terminal, or flag and race settled together |
| `MockSession.MockSession.Close` | adapters/mock/src/index.mjs:240-245 | a started run that is not over is cancelled first |
| `MockSession.MockSession.ResumeClose` | adapters/mock/src/index.mjs:242-244 | the session is marked closed after that cancel |
| `MockSession.MockSession.RunOutcome` | adapters/mock/src/index.mjs:96-186 | every session object whose run was consumed ended in one terminal event, the reference outcome of what it accepted |
| `MockSession.MockSession.FailClosed` | adapters/mock/src/index.mjs:106-153 | in every session object with an approval prompt, no part of a result has left unless the first accepted decision, which the deferred holds, was approve |
| `LocalTheorems.NextKeeps` | adapters/ollama-local/src/index.mjs:122-237 | every step keeps: stream shape, signal equal to the history, verdict equal to the table |
| `LocalTheorems.RunOutcome` | adapters/ollama-local/src/index.mjs:122-205 | a fully consumed stream ends in its one terminal event, equal to state.terminal and the reference outcome, and is never run.timed_out |
| `LocalTheorems.AbortDecides` | adapters/ollama-local/src/index.mjs:191-201 | with an HTTP client that obeys its signal the run is cancelled if and only if it was aborted, by anyone, before the call settled (also lines 139, 155-169, 207-213, 232-237) |
| `LocalTheorems.CancelBeforeStartIsLost` | adapters/ollama-local/src/index.mjs:207-213 | in every reachable state a cancel leaves everything as it is if and only if the run is over or has no controller yet; without a controller no verdict exists and the answer is still cancelled |
| `LocalTheorems.EarlyCancelStillSucceeds` | adapters/ollama-local/src/index.mjs:122-213 | a schedule where a cancel before the run begins is answered as cancelled and the run succeeds |
| `LocalTheorems.StreamPasses` | adapters/ollama-local/src/index.mjs:122-205 | every fully consumed stream passes the checker and carries the session's identities |
| `LocalTheorems.LateCancelStillSucceeds` | adapters/ollama-local/src/index.mjs:171-213 | a schedule where cancel answers confirmed after the output and the run succeeds |
| `LocalStreams.StreamIsWhole` | adapters/ollama-local/src/index.mjs:122-205 | a fully consumed stream is run.started and its verdict, or run.started, message, one artifact, usage, run.succeeded: in this order, nothing else |
| `LocalStreams.CancelAnswersTruly` | adapters/ollama-local/src/index.mjs:207-213 | in every reachable state cancel answers that it cancelled or that the run was over, never both; confirmed if and only if the signal is aborted now or the run was over |
| `LocalStreams.TimerAborts` | adapters/ollama-local/src/index.mjs:139-147 | in every reachable state a timer that is on aborts the signal when it fires, once, and one that is off does nothing; it is off once the run is over or its consumer left the try block (also lines 202-204) |
| `LocalStreams.CloseAborts` | adapters/ollama-local/src/index.mjs:232-237 | close marks the session at once and aborts a run without a verdict |
| `LocalStreams.ClosedNeverBegins` | adapters/ollama-local/src/index.mjs:122-128 | a session closed before its run began never yields an event |
| `LocalSession.LocalSession.Pull` | adapters/ollama-local/src/index.mjs:122-190 | a pull moves the session by one step and returns the event it appended |
| `LocalSession.LocalSession.ConsumerReturn` | adapters/ollama-local/src/index.mjs:142-147 | leaving the generator clears the timer exactly when the try block was entered (also lines 202-204) |
| `LocalSession.LocalSession.ResumeFetch` | adapters/ollama-local/src/index.mjs:155-165 | rejection, bad status, good status |
| `LocalSession.LocalSession.ResumeErrorText` | adapters/ollama-local/src/index.mjs:162-165 | a bad status always throws after its body was read |
| `LocalSession.LocalSession.ResumeJson` | adapters/ollama-local/src/index.mjs:167-171 | unreadable and empty bodies throw, an output is yielded |
| `LocalSession.LocalSession.TimerFired` | adapters/ollama-local/src/index.mjs:139-140 | the timer aborts the run's controller, once |
| `LocalSession.LocalSession.Cancel` | adapters/ollama-local/src/index.mjs:207-213 | the three answers of cancel with their effects |
| `LocalSession.LocalSession.Close` | adapters/ollama-local/src/index.mjs:232-237 | close aborts a run that is not over and marks the session |
| `LocalSession.LocalSession.RunOutcome` | adapters/ollama-local/src/index.mjs:122-205 | every session object whose run was consumed ended in one terminal event, the reference outcome of its aborts and its HTTP call, never a timeout |
| `AdapterContract.StreamSettlesRun` | packages/gateway-core/src/runtime.mjs:245-256 | a stream with one terminal event at its end settles the run in that state and is never a protocol mismatch |
| `AdapterContract.ProcessRunRecorded` | packages/gateway-core/src/runtime.mjs:245-256 | the recorded state of a fully consumed process stream is the reference outcome |
| `AdapterContract.MockRunRecorded` | packages/gateway-core/src/runtime.mjs:245-256 | the same for the mock adapter |
| `AdapterContract.LocalRunRecorded` | packages/gateway-core/src/runtime.mjs:245-256 | the same for the local-model adapter |
| `Redaction.PickSound` | packages/adapter-sdk/src/index.mjs:203-209 | what the engine replaces is a match of the pattern |
| `Redaction.PickComplete` | packages/adapter-sdk/src/index.mjs:203-209 | wherever a match starts something is replaced, the longest for greedy patterns |
| `RedactionProofs.ReplaceRemoves` | packages/adapter-sdk/src/index.mjs:203-209 | after a replacement its own pattern matches nowhere |
| `RedactionProofs.ReplaceKeepsOut` | packages/adapter-sdk/src/index.mjs:203-209 | no later replacement brings back a match of an earlier pattern |
| `RedactionProofs.RedactedTextIsClean` | packages/adapter-sdk/src/index.mjs:201-210 | after all seven replacements no pattern matches anywhere |
| `RedactionProofs.CleanTextIsKept` | packages/adapter-sdk/src/index.mjs:201-210 | text without a match is returned unchanged |
| `RedactionProofs.RedactTextIdempotent` | packages/adapter-sdk/src/index.mjs:201-210 | redacting twice is redacting once |
| `RedactionMeaning.ReplaceRewrites` | packages/adapter-sdk/src/index.mjs:203-209 | a replacement replaces disjoint matches in order, each the longest at its start (for a key the span to the first footer behind its header), copies every character between them, and no match starts outside them |
| `RedactionMeaning.RedactTextRewrites` | packages/adapter-sdk/src/index.mjs:201-210 | redacting is those seven rewritings one after the other |
| `RedactionMeaning.RedactTextIsTheOne` | packages/adapter-sdk/src/index.mjs:201-210 | for every text the seven rewritings have exactly one result, and it is what redactText returns |
| `RedactionProofs.RedactedTreeIsClean` | packages/adapter-sdk/src/index.mjs:187-199 | no string of a redacted value matches a pattern and nothing but the mark sits under a secret key |
| `RedactionProofs.CleanTreeIsKept` | packages/adapter-sdk/src/index.mjs:187-199 | a value that is already clean is returned unchanged |
| `RedactionProofs.RedactSecretsIdempotent` | packages/gateway-core/src/runtime.mjs:370-372 | a record written redacted shows the same when it is read back and redacted again (also lines 320) |
| `RedactionMeaning.RedactSecretsKeepsShape` | packages/adapter-sdk/src/index.mjs:187-199 | a redacted value has the same constructors, lengths and keys in the same order, the same numbers, booleans and nulls; only strings are rewritten, and only values under secret keys replaced |
| `Artifacts.IntegrityNeedsCleanText` | packages/adapter-sdk/src/index.mjs:169-185 | stored content is clean; unless this text collides with its own redaction under the hash, the integrity check accepts a fresh artifact if and only if its text was clean |
| `Artifacts.SizeIsOfTheOriginal` | packages/adapter-sdk/src/index.mjs:169-185 | whatever the hash, an artifact is accepted only if its redaction has the size and the hash of the text as produced (also packages/conformance-kit, lines 35-38) |
| `SupportLadder.TransitionDecides` | packages/gateway-core/src/federation-registry.mjs:175-195 | an error exactly for unlisted values; otherwise allowed exactly when the policy allows it and exactly when nothing is missing |
| `SupportLadder.DenialsNameTheirReason` | packages/gateway-core/src/federation-registry.mjs:175-195 | every denial between listed values reports the rule that forbids the move, or exactly the ids asked for that are not verified (also lines 257-273) |
| `SupportLadder.GateIsMonotone` | packages/gateway-core/src/federation-registry.mjs:175-195 | more verified evidence never closes a transition (also lines 257-261) |
| `SupportLadder.RetryOpens` | packages/gateway-core/src/federation-registry.mjs:175-195 | supplying the reported ids as verified opens a denied transition if and only if it is one that evidence decides (also lines 257-269) |
| `SupportLadder.MovesOntoRung` | packages/gateway-core/src/federation-registry.mjs:185-194 | a rung is reached only by staying, by climbing one rung on its evidence, or by a reviewed remediation |
| `SupportLadder.EarnedPromotion` | packages/gateway-core/src/federation-registry.mjs:175-195 | on every allowed chain ending on a rung, every rung above its base was entered in order with all its evidence, the base being the start or the last reviewed remediation (also lines 39-52) |
| `SupportLadder.DeclaredEarnsEveryRung` | packages/gateway-core/src/federation-registry.mjs:175-195 | from DECLARED_UNVERIFIED each rung up to the present one was entered on its evidence (also lines 39-52) |
| `SupportLadder.BlockedStartsOver` | packages/gateway-core/src/federation-registry.mjs:185-194 | from BLOCKED or DEPRECATED a rung is reached only through a reviewed remediation and then every rung below it |
| `SupportLadder.DeprecatedLeavesByBlocking` | packages/gateway-core/src/federation-registry.mjs:180-189 | a chain leaves DEPRECATED if and only if some step targets BLOCKED |
| `SupportLadder.DeprecatedCanReturn` | packages/gateway-core/src/federation-registry.mjs:180-189 | such a chain exists and reaches DECLARED_UNVERIFIED |
| `FederationRegistry.CheckEntries` | packages/gateway-core/src/federation-registry.mjs:204-222 | the loop with its two sets accepts exactly well-formed entries with ids and names distinct in any case |
| `FederationRegistry.CheckFirstClass` | packages/gateway-core/src/federation-registry.mjs:223-226 | the loop accepts exactly lists that hold all eight ids |
| `FederationRegistry.ValidateRegistryDocument` | packages/gateway-core/src/federation-registry.mjs:197-228 | accepts exactly the valid documents |
| `FederationRegistry.FirstClassIsPermutation` | packages/gateway-core/src/federation-registry.mjs:223-226 | the first-class ids of a valid document are H01 to H08, each once, in some order (also lines 201) |
| `FederationRegistry.IndexAgreesWithScan` | packages/gateway-core/src/federation-registry.mjs:109-113 | the index answers every query like a case-insensitive scan if and only if no canonical name is another entry's id (also lines 139-143) |
| `FederationRegistry.Registry.constructor` | packages/gateway-core/src/federation-registry.mjs:103-114 | the loop builds the index of all entries, later ones winning |
| `FederationRegistry.Registry.GetHarness` | packages/gateway-core/src/federation-registry.mjs:139-143 | a lookup is what the scan finds whenever names and ids do not cross |
| `FederationRegistry.CreateRegistry` | packages/gateway-core/src/federation-registry.mjs:103-114 | a registry exists if and only if its document is valid |
| `FederationRegistry.ValidateCombatPassport` | packages/gateway-core/src/federation-registry.mjs:230-255 | accepts exactly passports that match their harness and carry each required id once with a listed status |
| `FederationRegistry.EvidenceIsUnambiguous` | packages/gateway-core/src/federation-registry.mjs:230-255 | an accepted passport has exactly one status for every required id, so no id is both verified and anything else |
| `FederationRegistry.PassportNamesOneHarness` | packages/gateway-core/src/federation-registry.mjs:230-255 | a passport is accepted for at most one entry of a valid document (also lines 197-228) |
| `FederationRegistry.PassportsAgree` | packages/gateway-core/src/federation-registry.mjs:230-255 | two passports accepted for the same harness differ in their evidence alone |
| `FederationRegistry.PassportDecidesPromotion` | packages/gateway-core/src/federation-registry.mjs:175-195 | from the support of a harness with an accepted passport no listed transition is an error, and one that evidence decides is allowed exactly if the passport shows all of it as verified (also lines 230-255) |

## Left out

- HTTP routing, authentication, dashboard, command line and deployment scripts: plumbing around the modelled objects.
- Request validation (`validateFanout` beyond the concurrency bound of `ConfiguredCapDecides`), `describe`, capability lookups, adapter listing and `listJobs` ordering: single-branch facts.
- Timestamps, cancel reasons, business acceptance, event payloads and severities: no protocol state depends on them; repairing is therefore about the record without `updated_at`.
- Random ids and SHA-256: parameters (a fresh id at each yield, an arbitrary hash).
- File system beyond "the temporary write may fail" and "the rename happens or fails"; JSON encoding beyond a faithful round trip.
- GatewayRuntime.GatewayRuntime.RestartFrom: a job with no file on disk is gone after it, while the step system of that job leaves such a state alone; it takes the gateway's own directory, and the repairs of different jobs may land in any order, where the source awaits each before it reads the next file. `Recovery.Load` models that order, and other file names.
- The gateway's schedules: the model lets the first claims of the workers happen one by one, while the source makes them in one synchronous turn; every real schedule is among those modelled.
- Real processes, signals, the platform's way of killing a process tree, HTTP: environment steps with an outcome. That an aborted HTTP call yields no output is a hypothesis of `AbortDecides`, not of the model.
- ProcessTheorems.RunOutcome: one iterator per session, as the gateway has; a second iterator begun before the first reaches `runChild` is not modelled.
- Session tables (`createSession` returning the existing handle, unknown sessions), `collectArtifacts` copies, `resume`, and the commands an adapter refuses outright: single lookups.
- Vendor `parseOutput` functions and invocation builders: an arbitrary result or throw.
- Workspace containment of file URIs: it restates Node's path functions, which are not part of this model.
- Strings: characters are code points; JavaScript's UTF-16 surrogate halves are not modelled. `toUpperCase` in the registry is an arbitrary function.
- FederationRegistry.ValidateRegistryDocument: all rejections are one answer; their messages and the type errors of malformed JSON shapes are not modelled.
