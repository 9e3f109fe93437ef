// The life of one fan-out Job as a step system.
//
// Code between two awaits is one step.  A step names the suspended frame that resumes and the
// answer it receives from outside (adapter, file system, client).  A step that is not enabled
// leaves the state alone, so any sequence of steps is a schedule.
module GatewayModel {
  import opened Wrappers
  import Events
  import Queue = PersistQueue
  import Pool = WorkerPool

  // ----- The durable record (runtime.mjs 70-100) -----

  datatype RunState = QUEUED | STARTING | RUNNING | SUCCEEDED | FAILED | CANCELLED | TIMED_OUT

  datatype ErrorCode = AdapterUnhealthy | ProtocolMismatch | FromAdapter | FromDisk | GatewayRestarted

  datatype Run = Run(
    state: RunState, events: seq<Events.EventType>, artifacts: seq<nat>, error: Option<ErrorCode>,
    cancelRequested: bool, cancelError: bool)

  datatype Status = InProgress | COMPLETED | PARTIAL | CANCELLED_JOB | FAILED_JOB

  datatype Job = Job(
    status: Status, cancelRequested: bool, error: bool, persistenceError: bool, recovered: bool, runs: seq<Run>)

  predicate Terminal(s: RunState) {
    s == SUCCEEDED || s == FAILED || s == CANCELLED || s == TIMED_OUT
  }

  predicate Active(s: RunState) {
    s == QUEUED || s == STARTING || s == RUNNING
  }

  // runtime.mjs 8-13
  function TerminalToState(e: Events.EventType): Option<RunState> {
    match e
    case RunSucceeded => Some(SUCCEEDED)
    case RunFailed => Some(FAILED)
    case RunCancelled => Some(CANCELLED)
    case RunTimedOut => Some(TIMED_OUT)
    case _ => None
  }

  // The state named by the last terminal event of a recorded stream.
  function LastTerminal(events: seq<Events.EventType>): Option<RunState> {
    if events == [] then None
    else
      var last := TerminalToState(events[|events| - 1]);
      if last.Some? then last else LastTerminal(events[..|events| - 1])
  }

  // ----- Suspended frames -----

  // The frame of one #executeRun call; `op` is the write it awaits.
  datatype Pc =
    | Unclaimed
    | AwaitCancelPersist(op: nat)
    | AwaitHealth
    | AwaitFailPersist(op: nat)
    | AwaitStartingPersist(op: nat)
    | AwaitCreateSession
    | AwaitRunningPersist(op: nat)
    | AwaitNext
    | AwaitEventPersist(op: nat)
    | AwaitReturn
    | AwaitArtifacts
    | AwaitCatchPersist(op: nat)
    | AwaitClose(rethrow: bool)
    | AwaitFinalPersist(op: nat, rethrow: bool)
    | Done
    | Threw

  // How often the adapter saw each call on one session.  `lateCancel`: cancel was called after close.
  datatype Session = Session(starts: nat, closes: nat, cancels: nat, lateCancel: bool)

  datatype Task = Task(pc: Pc, healthChecks: nat, session: Option<Session>)

  // The frame of one cancelJob or cancelRun call.
  datatype Cancel =
    | JobAwaitAdapter(run: nat)
    | JobAwaitPersist(op: nat)
    | RunAwaitAdapter(run: nat)
    | RunAwaitPersist(op: nat)
    | CancelReturned

  // The frame of submitFanout followed by #execute.  Published remembers the commit write and
  // how many writes had been enqueued when the verdict was assigned to the live job.
  datatype Executor =
    | Submitting(op: nat)
    | SubmitFailed
    | Pooling
    | Committing(op: nat, verdict: Status)
    | Published(op: nat, verdict: Status, at: nat)
    | CommittingFailure(op: nat)
    | FailurePublished(op: nat)
    | FailureUnsaved
    | Reloaded

  datatype Sys = Sys(
    limit: int, job: Job, active: set<nat>, tasks: seq<Task>, pool: Pool.Pool,
    executor: Executor, cancels: seq<Cancel>, queue: Queue.Queue<Job>)

  datatype Health = Healthy | Unhealthy | HealthThrows
  datatype StreamStep = Yields(event: Events.EventType) | Ends | Throws
  datatype ArtifactStep = Artifact(id: nat) | NoMore | CollectThrows

  datatype Action =
    | SubmitResumes
    | WorkerResumes(w: nat, enabled: bool)
    | HealthReturns(i: nat, health: Health)
    | PersistReturns(i: nat)
    | SessionReturns(i: nat, ok: bool)
    | StreamReturns(i: nat, step: StreamStep)
    | IteratorReturns(i: nat)
    | ArtifactReturns(i: nat, artifact: ArtifactStep)
    | CloseReturns(i: nat)
    | PoolSettles
    | CommitReturns
    | CancelJob
    | CancelRun(i: nat)
    | CancelReturns(c: nat, threw: bool)
    | DiskWrite(op: nat, ok: bool)
    | WriteReturns(op: nat)
    | Restart

  // ----- Small pieces -----

  // #persist up to its await: the ticket is the index of the new write.
  function Ticket(s: Sys): nat {
    |s.queue.ops|
  }

  function Persist(s: Sys): Sys {
    s.(queue := Queue.Enqueue(s.queue, s.job))
  }

  // The awaited write settled and the persist frame returned (or threw).
  predicate Back(s: Sys, op: nat) {
    op < |s.queue.ops| && s.queue.ops[op].released
  }

  predicate Saved(s: Sys, op: nat)
    requires Back(s, op)
  {
    s.queue.ops[op].phase.Landed?
  }

  function SetRun(s: Sys, i: nat, run: Run): Sys
    requires i < |s.job.runs|
  {
    s.(job := s.job.(runs := s.job.runs[i := run]))
  }

  function SetPc(s: Sys, i: nat, pc: Pc): Sys
    requires i < |s.tasks|
  {
    s.(tasks := s.tasks[i := s.tasks[i].(pc := pc)])
  }

  function SetSession(s: Sys, i: nat, session: Option<Session>): Sys
    requires i < |s.tasks|
  {
    s.(tasks := s.tasks[i := s.tasks[i].(session := session)])
  }

  predicate InRange(s: Sys, i: nat) {
    i < |s.job.runs| && i < |s.tasks|
  }

  function Failed(run: Run, code: ErrorCode): Run {
    run.(state := FAILED, error := Some(code))
  }

  // runtime.mjs 269-274, called before the try block
  function FailEarly(s: Sys, i: nat, code: ErrorCode): Sys
    requires InRange(s, i)
  {
    SetPc(Persist(SetRun(s, i, Failed(s.job.runs[i], code))), i, AwaitFailPersist(Ticket(s)))
  }

  // runtime.mjs 257-258, called in the catch block
  function Catch(s: Sys, i: nat, code: ErrorCode): Sys
    requires InRange(s, i)
  {
    SetPc(Persist(SetRun(s, i, Failed(s.job.runs[i], code))), i, AwaitCatchPersist(Ticket(s)))
  }

  function FinalPersist(s: Sys, i: nat, rethrow: bool): Sys
    requires InRange(s, i)
  {
    SetPc(Persist(s), i, AwaitFinalPersist(Ticket(s), rethrow))
  }

  // runtime.mjs 259-265: leave activeRuns, close the session if there is one.
  function Finally(s: Sys, i: nat, rethrow: bool): Sys
    requires InRange(s, i)
  {
    var t := s.(active := s.active - {i});
    match s.tasks[i].session
    case Some(session) => SetPc(SetSession(t, i, Some(session.(closes := session.closes + 1))), i, AwaitClose(rethrow))
    case None => FinalPersist(t, i, rethrow)
  }

  // ----- #executeRun -----

  // runtime.mjs 196-207
  function Begin(s: Sys, i: nat, enabled: bool): Sys
    requires InRange(s, i)
  {
    if s.job.cancelRequested then
      SetPc(Persist(SetRun(s, i, s.job.runs[i].(state := CANCELLED))), i, AwaitCancelPersist(Ticket(s)))
    else if !enabled then FailEarly(s, i, AdapterUnhealthy)
    else s.(tasks := s.tasks[i := s.tasks[i].(pc := AwaitHealth, healthChecks := s.tasks[i].healthChecks + 1)])
  }

  // runtime.mjs 207-214
  function AfterHealth(s: Sys, i: nat, health: Health): Sys
    requires InRange(s, i)
  {
    match health
    case HealthThrows => SetPc(s, i, Threw)
    case Unhealthy => FailEarly(s, i, AdapterUnhealthy)
    case Healthy => SetPc(Persist(SetRun(s, i, s.job.runs[i].(state := STARTING))), i, AwaitStartingPersist(Ticket(s)))
  }

  // runtime.mjs 218-243
  function AfterSession(s: Sys, i: nat, ok: bool): Sys
    requires InRange(s, i)
  {
    if !ok then Catch(s, i, FromAdapter) else
      var t := SetRun(s, i, s.job.runs[i].(state := RUNNING)).(active := s.active + {i});
      SetPc(SetSession(Persist(t), i, Some(Session(0, 0, 0, false))), i, AwaitRunningPersist(Ticket(s)))
  }

  function Record(run: Run, e: Events.EventType): Run {
    var state := TerminalToState(e);
    run.(events := run.events + [e], state := if state.Some? then state.value else run.state)
  }

  // runtime.mjs 245-250
  function AfterStream(s: Sys, i: nat, step: StreamStep): Sys
    requires InRange(s, i)
  {
    match step
    case Yields(e) => SetPc(Persist(SetRun(s, i, Record(s.job.runs[i], e))), i, AwaitEventPersist(Ticket(s)))
    case Ends => SetPc(s, i, AwaitArtifacts)
    case Throws => Catch(s, i, FromAdapter)
  }

  predicate EndsOpen(run: Run) {
    && (run.events == [] || TerminalToState(run.events[|run.events| - 1]).None?)
    && run.state == RUNNING
  }

  function Collect(run: Run, id: nat): Run {
    if id in run.artifacts then run else run.(artifacts := run.artifacts + [id])
  }

  // runtime.mjs 251-256
  function AfterArtifact(s: Sys, i: nat, artifact: ArtifactStep): Sys
    requires InRange(s, i)
  {
    match artifact
    case Artifact(id) => SetRun(s, i, Collect(s.job.runs[i], id))
    case CollectThrows => Catch(s, i, FromAdapter)
    case NoMore => if EndsOpen(s.job.runs[i]) then Catch(s, i, ProtocolMismatch) else Finally(s, i, false)
  }

  // startRun is called once the RUNNING snapshot is on disk (runtime.mjs 243-245).
  function StartStream(s: Sys, i: nat): Sys
    requires InRange(s, i)
  {
    match s.tasks[i].session
    case Some(session) => SetPc(SetSession(s, i, Some(session.(starts := session.starts + 1))), i, AwaitNext)
    case None => s
  }

  function AfterPersist(s: Sys, i: nat): Sys
    requires InRange(s, i)
  {
    match s.tasks[i].pc
    case AwaitCancelPersist(op) => if !Back(s, op) then s else SetPc(s, i, if Saved(s, op) then Done else Threw)
    case AwaitFailPersist(op) => if !Back(s, op) then s else SetPc(s, i, if Saved(s, op) then Done else Threw)
    case AwaitStartingPersist(op) =>
      if !Back(s, op) then s else SetPc(s, i, if Saved(s, op) then AwaitCreateSession else Threw)
    case AwaitRunningPersist(op) =>
      if !Back(s, op) then s else if Saved(s, op) then StartStream(s, i) else Catch(s, i, FromDisk)
    case AwaitEventPersist(op) =>
      if !Back(s, op) then s else SetPc(s, i, if Saved(s, op) then AwaitNext else AwaitReturn)
    case AwaitCatchPersist(op) => if !Back(s, op) then s else Finally(s, i, !Saved(s, op))
    case AwaitFinalPersist(op, rethrow) =>
      if !Back(s, op) then s else SetPc(s, i, if rethrow || !Saved(s, op) then Threw else Done)
    case _ => s
  }

  // ----- #execute -----

  function CountState(runs: seq<Run>, state: RunState): nat {
    if runs == [] then 0
    else CountState(runs[..|runs| - 1], state) + (if runs[|runs| - 1].state == state then 1 else 0)
  }

  // runtime.mjs 170-187
  function Verdict(job: Job): Status {
    var succeeded := CountState(job.runs, SUCCEEDED);
    if succeeded == |job.runs| then COMPLETED
    else if succeeded > 0 then PARTIAL
    else if CountState(job.runs, CANCELLED) > 0 && job.cancelRequested then CANCELLED_JOB
    else FAILED_JOB
  }

  // #commitDurableState: a changed copy is enqueued, the live job is assigned later.
  function CommitFailure(s: Sys): Sys {
    var copy := s.job.(status := FAILED_JOB, error := true);
    s.(queue := Queue.Enqueue(s.queue, copy), executor := CommittingFailure(Ticket(s)))
  }

  function SettlePool(s: Sys): Sys {
    if Pool.Rejects(s.pool) then CommitFailure(s)
    else if Pool.Resolves(s.pool) then
      var verdict := Verdict(s.job);
      s.(queue := Queue.Enqueue(s.queue, s.job.(status := verdict)), executor := Committing(Ticket(s), verdict))
    else s
  }

  function AfterCommit(s: Sys): Sys {
    match s.executor
    case Committing(op, verdict) =>
      if !Back(s, op) then s
      else if Saved(s, op) then s.(job := s.job.(status := verdict), executor := Published(op, verdict, |s.queue.ops|))
      else CommitFailure(s)
    case CommittingFailure(op) =>
      if !Back(s, op) then s
      else if Saved(s, op) then s.(job := s.job.(status := FAILED_JOB, error := true), executor := FailurePublished(op))
      else s.(job := s.job.(status := FAILED_JOB, error := true, persistenceError := true), executor := FailureUnsaved)
    case _ => s
  }

  function AfterSubmit(s: Sys): Sys {
    match s.executor
    case Submitting(op) =>
      if !Back(s, op) then s
      else if Saved(s, op) then s.(executor := Pooling, pool := Pool.Start(|s.job.runs|, s.limit))
      else s.(executor := SubmitFailed)
    case _ => s
  }

  // mapLimit's worker: look at the awaited task, then claim the next run and start it.
  function StepWorker(s: Sys, w: nat, enabled: bool): Sys {
    if w >= |s.pool.workers| then s else
      var claimed := s.pool.next;
      match s.pool.workers[w]
      case Ready => Claim(s.(pool := Pool.Next(s.pool, Pool.Act(w, true))), claimed, enabled)
      case Busy(item) =>
        if item >= |s.tasks| then s
        else if s.tasks[item].pc == Done then Claim(s.(pool := Pool.Next(s.pool, Pool.Act(w, true))), claimed, enabled)
        else if s.tasks[item].pc == Threw then s.(pool := Pool.Next(s.pool, Pool.Act(w, false)))
        else s
      case Retired => s
      case Rejected(_) => s
  }

  function Claim(s: Sys, i: nat, enabled: bool): Sys {
    if i < s.pool.next && InRange(s, i) then Begin(s, i, enabled) else s
  }

  // ----- cancelJob and cancelRun -----

  // The first run at or after `i` on which the sweep must await adapter.cancel.
  function SweepStop(runs: seq<Run>, active: set<nat>, i: nat): nat
    decreases |runs| - i
  {
    if i >= |runs| then |runs|
    else if !Terminal(runs[i].state) && i in active then i
    else SweepStop(runs, active, i + 1)
  }

  // Runs in [i, stop) that are neither terminal nor active are marked CANCELLED.
  function SweepRuns(runs: seq<Run>, i: nat, stop: nat): seq<Run> {
    seq(|runs|, k requires 0 <= k < |runs| =>
      if i <= k < stop && !Terminal(runs[k].state) then runs[k].(state := CANCELLED) else runs[k])
  }

  function CallAdapterCancel(s: Sys, i: nat): Sys
    requires i < |s.tasks|
  {
    match s.tasks[i].session
    case Some(session) =>
      var late := session.lateCancel || session.closes > 0;
      SetSession(s, i, Some(session.(cancels := session.cancels + 1, lateCancel := late)))
    case None => s
  }

  // Returns the swept state and what the canceller awaits next (runtime.mjs 135-149).
  function Sweep(s: Sys, i: nat): (Sys, Cancel) {
    var stop := SweepStop(s.job.runs, s.active, i);
    var t := s.(job := s.job.(runs := SweepRuns(s.job.runs, i, stop)));
    if stop < |s.job.runs| && stop < |s.tasks| then (CallAdapterCancel(t, stop), JobAwaitAdapter(stop))
    else (Persist(t), JobAwaitPersist(Ticket(t)))
  }

  function StartCancelJob(s: Sys): Sys {
    var (t, c) := Sweep(s.(job := s.job.(cancelRequested := true)), 0);
    t.(cancels := t.cancels + [c])
  }

  function StartCancelRun(s: Sys, i: nat): Sys {
    if i !in s.active || !InRange(s, i) then s else
      var t := CallAdapterCancel(SetRun(s, i, s.job.runs[i].(cancelRequested := true)), i);
      t.(cancels := t.cancels + [RunAwaitAdapter(i)])
  }

  // A thrown adapter.cancel is noted on the run and otherwise ignored.
  function NoteError(s: Sys, i: nat, threw: bool): Sys
    requires i < |s.job.runs|
  {
    if threw then SetRun(s, i, s.job.runs[i].(cancelError := true)) else s
  }

  // The adapter answered the sweep of canceller `c` about run `i`: note an error, sweep on.
  function ResumeSweep(s: Sys, c: nat, i: nat, threw: bool): Sys
    requires c < |s.cancels| && i < |s.job.runs|
  {
    var (u, frame) := Sweep(NoteError(s, i, threw), i + 1);
    if c < |u.cancels| then u.(cancels := u.cancels[c := frame]) else u
  }

  function EndCancel(s: Sys, c: nat): Sys
    requires c < |s.cancels|
  {
    s.(cancels := s.cancels[c := CancelReturned])
  }

  function AfterCancel(s: Sys, c: nat, threw: bool): Sys {
    if c >= |s.cancels| then s else
      match s.cancels[c]
      case JobAwaitAdapter(i) => if i < |s.job.runs| then ResumeSweep(s, c, i, threw) else s
      case JobAwaitPersist(op) => if Back(s, op) then EndCancel(s, c) else s
      case RunAwaitAdapter(_) =>
        if threw then EndCancel(s, c) else Persist(s.(cancels := s.cancels[c := RunAwaitPersist(Ticket(s))]))
      case RunAwaitPersist(op) => if Back(s, op) then EndCancel(s, c) else s
      case CancelReturned => s
  }

  // ----- Restart (runtime.mjs 276-310) -----

  function RepairRun(run: Run): Run {
    if Active(run.state) then Failed(run, GatewayRestarted) else run
  }

  predicate NeedsRepair(job: Job) {
    job.status == InProgress || exists i :: 0 <= i < |job.runs| && Active(job.runs[i].state)
  }

  function Repair(job: Job): Job {
    var runs := seq(|job.runs|, i requires 0 <= i < |job.runs| => RepairRun(job.runs[i]));
    if NeedsRepair(job) then job.(runs := runs, status := FAILED_JOB, recovered := true) else job
  }

  // A crash drops every frame and every write that was not renamed; the next process loads the disk.
  function AfterRestart(s: Sys): Sys {
    match s.queue.disk
    case None => s
    case Some(saved) =>
      var job := Repair(saved);
      var idle := Queue.Empty(s.queue.disk);
      Sys(s.limit, job, {}, seq(|job.runs|, _ => Task(Done, 0, None)), Pool.Start(0, 0), Reloaded, [],
          if NeedsRepair(saved) then Queue.Enqueue(idle, job) else idle)
  }

  // ----- The step function -----

  function NewRun(): Run {
    Run(QUEUED, [], [], None, false, false)
  }

  // runtime.mjs 70-106: the job is registered and its first snapshot enqueued.
  function Init(n: nat, limit: int): Sys {
    var job := Job(InProgress, false, false, false, false, seq(n, _ => NewRun()));
    Sys(limit, job, {}, seq(n, _ => Task(Unclaimed, 0, None)), Pool.Start(0, 0), Submitting(0), [],
        Queue.Enqueue(Queue.Empty(None), job))
  }

  predicate Awaits(s: Sys, i: nat, pc: Pc) {
    InRange(s, i) && s.tasks[i].pc == pc
  }

  function Next(s: Sys, a: Action): Sys {
    match a
    case SubmitResumes => AfterSubmit(s)
    case WorkerResumes(w, enabled) => StepWorker(s, w, enabled)
    case HealthReturns(i, health) => if Awaits(s, i, AwaitHealth) then AfterHealth(s, i, health) else s
    case PersistReturns(i) => if InRange(s, i) then AfterPersist(s, i) else s
    case SessionReturns(i, ok) => if Awaits(s, i, AwaitCreateSession) then AfterSession(s, i, ok) else s
    case StreamReturns(i, step) => if Awaits(s, i, AwaitNext) then AfterStream(s, i, step) else s
    case IteratorReturns(i) => if Awaits(s, i, AwaitReturn) then Catch(s, i, FromDisk) else s
    case ArtifactReturns(i, artifact) => if Awaits(s, i, AwaitArtifacts) then AfterArtifact(s, i, artifact) else s
    case CloseReturns(i) =>
      if InRange(s, i) && s.tasks[i].pc.AwaitClose? then FinalPersist(s, i, s.tasks[i].pc.rethrow) else s
    case PoolSettles => if s.executor.Pooling? then SettlePool(s) else s
    case CommitReturns => AfterCommit(s)
    case CancelJob => StartCancelJob(s)
    case CancelRun(i) => StartCancelRun(s, i)
    case CancelReturns(c, threw) => AfterCancel(s, c, threw)
    case DiskWrite(op, ok) => s.(queue := Queue.Advance(s.queue, op, ok))
    case WriteReturns(op) => s.(queue := Queue.Release(s.queue, op))
    case Restart => AfterRestart(s)
  }

  function Exec(s: Sys, actions: seq<Action>): Sys
    decreases |actions|
  {
    if actions == [] then s else Exec(Next(s, actions[0]), actions[1..])
  }

  lemma {:induction false} ExecThen(s: Sys, actions: seq<Action>, a: Action)
    ensures Exec(s, actions + [a]) == Next(Exec(s, actions), a)
    decreases |actions|
  {
    hide Next;
    if actions == [] {
      assert (actions + [a])[1..] == [];
    } else {
      assert (actions + [a])[1..] == actions[1..] + [a];
      ExecThen(Next(s, actions[0]), actions[1..], a);
    }
  }
}
