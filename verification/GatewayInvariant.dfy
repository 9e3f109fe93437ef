// What every step of the gateway keeps, for any adapter, any schedule and any disk.
module GatewayInvariant {
  import opened Wrappers
  import Events
  import opened GatewayModel
  import Queue = PersistQueue
  import Pool = WorkerPool

  // ----- Runs and jobs that never claim a success they did not have -----

  predicate RunHonest(r: Run) {
    r.state == SUCCEEDED ==> LastTerminal(r.events) == Some(SUCCEEDED)
  }

  predicate AllSucceeded(runs: seq<Run>) {
    forall i :: 0 <= i < |runs| ==> runs[i].state == SUCCEEDED
  }

  predicate NoneSucceeded(runs: seq<Run>) {
    forall i :: 0 <= i < |runs| ==> runs[i].state != SUCCEEDED
  }

  predicate SomeCancelled(runs: seq<Run>) {
    exists i :: 0 <= i < |runs| && runs[i].state == CANCELLED
  }

  // FAILED says nothing succeeded only when the job carries neither an engine error nor a repair mark.
  predicate StatusHonest(j: Job) {
    match j.status
    case InProgress => true
    case COMPLETED => AllSucceeded(j.runs)
    case PARTIAL => !AllSucceeded(j.runs) && !NoneSucceeded(j.runs)
    case CANCELLED_JOB => NoneSucceeded(j.runs) && j.cancelRequested && SomeCancelled(j.runs)
    case FAILED_JOB => !j.error && !j.recovered ==> NoneSucceeded(j.runs)
  }

  ghost predicate JobHonest(j: Job) {
    StatusHonest(j) && forall i :: 0 <= i < |j.runs| ==> RunHonest(j.runs[i])
  }

  // ----- One run, its frame and its session -----

  predicate Streaming(r: Run) {
    r.state == match LastTerminal(r.events) case Some(state) => state case None => RUNNING
  }

  predicate Fresh(r: Run) {
    r.events == [] && (r.state == QUEUED || r.state == CANCELLED)
  }

  predicate NoSession(t: Task, active: bool) {
    t.session.None? && !active
  }

  predicate Open(t: Task, active: bool, starts: nat) {
    active && match t.session case Some(x) => x.starts == starts && x.closes == 0 && !x.lateCancel case None => false
  }

  predicate Closed(t: Task, active: bool) {
    !active && match t.session case Some(x) => x.starts <= 1 && x.closes == 1 && !x.lateCancel case None => true
  }

  predicate TaskOk(r: Run, t: Task, active: bool) {
    match t.pc
    case Unclaimed => Fresh(r) && NoSession(t, active) && t.healthChecks == 0
    case AwaitCancelPersist(_) => r.state == CANCELLED && NoSession(t, active) && t.healthChecks == 0
    case AwaitHealth => Fresh(r) && NoSession(t, active)
    case AwaitFailPersist(_) => r.state == FAILED && NoSession(t, active)
    case AwaitStartingPersist(_) =>
      r.events == [] && (r.state == STARTING || r.state == CANCELLED) && NoSession(t, active)
    case AwaitCreateSession => r.events == [] && (r.state == STARTING || r.state == CANCELLED) && NoSession(t, active)
    case AwaitRunningPersist(_) => r.events == [] && r.state == RUNNING && Open(t, active, 0)
    case AwaitNext => Streaming(r) && Open(t, active, 1)
    case AwaitEventPersist(_) => Streaming(r) && Open(t, active, 1)
    case AwaitReturn => Streaming(r) && Open(t, active, 1)
    case AwaitArtifacts => Streaming(r) && Open(t, active, 1)
    case AwaitCatchPersist(_) => r.state == FAILED && (NoSession(t, active) || Open(t, active, 0) || Open(t, active, 1))
    case AwaitClose(_) => Terminal(r.state) && t.session.Some? && Closed(t, active)
    case AwaitFinalPersist(_, _) => Terminal(r.state) && Closed(t, active)
    case Done => Terminal(r.state) && Closed(t, active)
    case Threw => Closed(t, active)
  }

  predicate Finished(pc: Pc) {
    pc.Done? || pc.Threw?
  }

  predicate InFlight(pc: Pc) {
    !pc.Unclaimed? && !Finished(pc)
  }

  predicate AllDone(s: Sys) {
    forall i :: 0 <= i < |s.tasks| ==> s.tasks[i].pc.Done?
  }

  ghost predicate Shape(s: Sys) {
    && |s.tasks| == |s.job.runs|
    && (forall i :: i in s.active ==> i < |s.tasks|)
  }

  ghost predicate RunsOk(s: Sys)
    requires Shape(s)
  {
    forall i :: 0 <= i < |s.tasks| ==> TaskOk(s.job.runs[i], s.tasks[i], i in s.active)
  }

  // ----- Workers and tasks agree -----

  predicate PoolRuns(e: Executor) {
    !e.Submitting? && !e.SubmitFailed? && !e.Reloaded?
  }

  ghost predicate PoolOk(s: Sys) {
    if PoolRuns(s.executor) then
      && Pool.Valid(s.pool)
      && s.pool.items == |s.tasks|
      && |s.pool.workers| == Pool.WorkerCount(|s.tasks|, s.limit)
      && (forall i :: 0 <= i < |s.tasks| ==> (s.tasks[i].pc.Unclaimed? <==> s.pool.next <= i))
      && (forall i :: 0 <= i < |s.tasks| && i in s.pool.done ==> s.tasks[i].pc.Done?)
      && (forall w :: 0 <= w < |s.pool.workers| && s.pool.workers[w].Rejected? ==>
        s.pool.workers[w].failed < |s.tasks| && s.tasks[s.pool.workers[w].failed].pc.Threw?)
    else
      s.pool == Pool.Start(0, 0)
  }

  // ----- Snapshots and the verdict -----

  function Core(r: Run): (RunState, seq<Events.EventType>, seq<nat>, Option<ErrorCode>) {
    (r.state, r.events, r.artifacts, r.error)
  }

  ghost predicate SameCores(a: seq<Run>, b: seq<Run>) {
    |a| == |b| && forall i :: 0 <= i < |a| ==> Core(a[i]) == Core(b[i])
  }

  ghost predicate SnapshotsOk(s: Sys) {
    && (forall k :: 0 <= k < |s.queue.ops| ==>
      JobHonest(s.queue.ops[k].snapshot) && |s.queue.ops[k].snapshot.runs| == |s.job.runs|)
    && (s.queue.disk.Some? ==> JobHonest(s.queue.disk.value) && |s.queue.disk.value.runs| == |s.job.runs|)
  }

  ghost predicate FrozenFrom(s: Sys, op: nat) {
    forall k :: op <= k < |s.queue.ops| ==> SameCores(s.queue.ops[k].snapshot.runs, s.job.runs)
  }

  ghost predicate CommitOk(s: Sys, op: nat, verdict: Status) {
    && op < |s.queue.ops|
    && verdict != InProgress
    && AllDone(s)
    && FrozenFrom(s, op)
    && var snapshot := s.queue.ops[op].snapshot;
      snapshot.status == verdict && !snapshot.error && !snapshot.recovered
        && (snapshot.cancelRequested ==> s.job.cancelRequested)
  }

  ghost predicate PublishedOk(s: Sys, op: nat, verdict: Status, at: nat) {
    && CommitOk(s, op, verdict)
    && op < at <= |s.queue.ops|
    && s.queue.ops[op].phase.Landed?
    && (forall k :: op < k < at ==> s.queue.ops[k].snapshot.status == InProgress)
    && (forall k :: at <= k < |s.queue.ops| ==> s.queue.ops[k].snapshot.status == verdict)
    && DiskSince(s, op, verdict, at)
  }

  // Once the commit write landed the disk shows the final runs, and the verdict too unless a
  // write was enqueued after the commit and before the live job was assigned.
  ghost predicate DiskSince(s: Sys, op: nat, verdict: Status, at: nat) {
    && s.queue.disk.Some?
    && SameCores(s.queue.disk.value.runs, s.job.runs)
    && (s.queue.disk.value.status == verdict || at > op + 1)
  }

  ghost predicate Unflagged(s: Sys) {
    !s.job.error && !s.job.persistenceError && !s.job.recovered
  }

  ghost predicate ExecutorOk(s: Sys) {
    match s.executor
    case Submitting(_) =>
      s.job.status == InProgress && Unflagged(s) && forall i :: 0 <= i < |s.tasks| ==> s.tasks[i].pc.Unclaimed?
    case SubmitFailed =>
      s.job.status == InProgress && Unflagged(s) && forall i :: 0 <= i < |s.tasks| ==> s.tasks[i].pc.Unclaimed?
    case Pooling => s.job.status == InProgress && Unflagged(s)
    case Committing(op, verdict) => s.job.status == InProgress && Unflagged(s) && CommitOk(s, op, verdict)
      && (s.queue.ops[op].phase.Landed? ==> DiskSince(s, op, verdict, |s.queue.ops|))
      && (forall k :: op < k < |s.queue.ops| ==> s.queue.ops[k].snapshot.status == InProgress)
    case Published(op, verdict, at) => s.job.status == verdict && Unflagged(s) && PublishedOk(s, op, verdict, at)
    case CommittingFailure(op) =>
      && s.job.status == InProgress && Unflagged(s)
      && op < |s.queue.ops| && s.queue.ops[op].snapshot.status == FAILED_JOB
    case FailurePublished(op) =>
      && s.job.status == FAILED_JOB && s.job.error && !s.job.persistenceError
      && op < |s.queue.ops| && s.queue.ops[op].snapshot.status == FAILED_JOB && s.queue.ops[op].phase.Landed?
    case FailureUnsaved => s.job.status == FAILED_JOB && s.job.error && s.job.persistenceError
    case Reloaded => s.job.status != InProgress && AllDone(s)
  }

  ghost predicate Inv(s: Sys) {
    && s.limit >= 1 && |s.tasks| >= 1
    && Shape(s)
    && RunsOk(s)
    && PoolOk(s)
    && Queue.Linked(s.queue)
    && SnapshotsOk(s)
    && JobHonest(s.job)
    && ExecutorOk(s)
  }

  // ----- Steps of one executeRun frame -----

  // Only run `i` changes, and at most one write is enqueued, carrying the new job.
  ghost predicate Local(s: Sys, t: Sys, i: nat)
    requires i < |s.tasks| && Shape(s)
  {
    && Shape(t)
    && |t.tasks| == |s.tasks|
    && t.limit == s.limit && t.pool == s.pool && t.executor == s.executor
    && t.job == s.job.(runs := s.job.runs[i := t.job.runs[i]])
    && (forall k :: 0 <= k < |s.tasks| && k != i ==> t.tasks[k] == s.tasks[k] && (k in t.active <==> k in s.active))
    && (t.queue == s.queue || t.queue == Queue.Enqueue(s.queue, t.job))
  }

  lemma EnqueueKeeps(s: Sys, t: Sys)
    requires Queue.Linked(s.queue) && SnapshotsOk(s) && JobHonest(t.job) && |t.job.runs| == |s.job.runs|
    requires t.queue == s.queue || t.queue == Queue.Enqueue(s.queue, t.job)
    ensures Queue.Linked(t.queue) && SnapshotsOk(t)
  {
    if t.queue != s.queue {
      Queue.EnqueueLinked(s.queue, t.job);
    }
  }

  // While a run is in flight the job is in progress or already marked failed by the engine.
  lemma NotFrozen(s: Sys, i: nat)
    requires Inv(s) && i < |s.tasks| && InFlight(s.tasks[i].pc)
    ensures s.executor.Pooling? || s.executor.CommittingFailure? || s.executor.FailurePublished?
      || s.executor.FailureUnsaved?
    ensures s.job.status == InProgress || (s.job.status == FAILED_JOB && s.job.error)
  {
  }

  lemma LocalPreserves(s: Sys, t: Sys, i: nat)
    requires Inv(s) && i < |s.tasks| && InFlight(s.tasks[i].pc)
    requires Local(s, t, i)
    requires TaskOk(t.job.runs[i], t.tasks[i], i in t.active) && !t.tasks[i].pc.Unclaimed?
    requires RunHonest(t.job.runs[i])
    ensures Inv(t)
  {
    NotFrozen(s, i);
    assert JobHonest(t.job);
    EnqueueKeeps(s, t);
    assert PoolOk(t);
  }

  lemma ExecutorAt(s: Sys)
    requires Inv(s)
    ensures ExecutorOk(s)
  {
    hide ExecutorOk;
    hide Shape;
    hide RunsOk;
    hide PoolOk;
    hide SnapshotsOk;
    hide JobHonest;
    hide Queue.Linked;
  }

  lemma PublishedAt(s: Sys)
    requires Inv(s) && s.executor.Published?
    ensures s.job.status == s.executor.verdict
    ensures PublishedOk(s, s.executor.op, s.executor.verdict, s.executor.at)
  {
    ExecutorAt(s);
    hide Inv;
    hide PublishedOk;
  }

  lemma PoolAt(s: Sys)
    requires Inv(s)
    ensures PoolOk(s)
  {
    hide ExecutorOk;
    hide Shape;
    hide RunsOk;
    hide PoolOk;
    hide SnapshotsOk;
    hide JobHonest;
    hide Queue.Linked;
  }

  lemma TaskAt(s: Sys, i: nat)
    requires Inv(s) && InRange(s, i)
    ensures Shape(s) && TaskOk(s.job.runs[i], s.tasks[i], i in s.active) && RunHonest(s.job.runs[i])
  {
  }

  lemma FailEarlyStep(s: Sys, i: nat, code: ErrorCode)
    requires Inv(s) && Awaits(s, i, AwaitHealth)
    ensures Inv(FailEarly(s, i, code))
  {
    hide Inv;
    TaskAt(s, i);
    LocalPreserves(s, FailEarly(s, i, code), i);
  }

  lemma StartingStep(s: Sys, i: nat)
    requires Inv(s) && Awaits(s, i, AwaitHealth)
    ensures Inv(AfterHealth(s, i, Healthy))
  {
    hide Inv;
    TaskAt(s, i);
    LocalPreserves(s, AfterHealth(s, i, Healthy), i);
  }

  lemma HealthStep(s: Sys, i: nat, health: Health)
    requires Inv(s) && Awaits(s, i, AwaitHealth)
    ensures Inv(AfterHealth(s, i, health))
  {
    hide Inv;
    hide FailEarly;
    TaskAt(s, i);
    match health {
      case HealthThrows => MovePc(s, i, Threw);
      case Unhealthy => FailEarlyStep(s, i, AdapterUnhealthy);
      case Healthy => StartingStep(s, i);
    }
  }

  lemma SessionStep(s: Sys, i: nat, ok: bool)
    requires Inv(s) && Awaits(s, i, AwaitCreateSession)
    ensures Inv(AfterSession(s, i, ok))
  {
    TaskAt(s, i);
    hide Inv;
    LocalPreserves(s, AfterSession(s, i, ok), i);
  }

  lemma EventHonest(r: Run, e: Events.EventType)
    requires Streaming(Record(r, e))
    ensures RunHonest(Record(r, e))
  {
    hide LastTerminal;
  }

  lemma RecordStreams(r: Run, e: Events.EventType)
    requires Streaming(r)
    ensures Streaming(Record(r, e))
  {
    assert (r.events + [e])[..|r.events|] == r.events;
  }

  lemma CatchStep(s: Sys, i: nat, code: ErrorCode)
    requires Inv(s) && InRange(s, i) && InFlight(s.tasks[i].pc)
    requires NoSession(s.tasks[i], i in s.active) || Open(s.tasks[i], i in s.active, 0)
      || Open(s.tasks[i], i in s.active, 1)
    ensures Inv(Catch(s, i, code))
  {
    TaskAt(s, i);
    hide Inv;
    LocalPreserves(s, Catch(s, i, code), i);
  }

  lemma IteratorStep(s: Sys, i: nat)
    requires Inv(s) && Awaits(s, i, AwaitReturn)
    ensures Inv(Catch(s, i, FromDisk))
  {
    TaskAt(s, i);
    CatchStep(s, i, FromDisk);
    hide Inv;
    hide Catch;
  }

  lemma FinallyStep(s: Sys, i: nat, rethrow: bool)
    requires Inv(s) && InRange(s, i) && InFlight(s.tasks[i].pc) && Terminal(s.job.runs[i].state)
    requires NoSession(s.tasks[i], i in s.active) || Open(s.tasks[i], i in s.active, 0)
      || Open(s.tasks[i], i in s.active, 1)
    ensures Inv(Finally(s, i, rethrow))
  {
    TaskAt(s, i);
    hide Inv;
    LocalPreserves(s, Finally(s, i, rethrow), i);
  }

  lemma EventStep(s: Sys, i: nat, e: Events.EventType)
    requires Inv(s) && Awaits(s, i, AwaitNext)
    ensures Inv(AfterStream(s, i, Yields(e)))
  {
    hide Inv;
    TaskAt(s, i);
    RecordStreams(s.job.runs[i], e);
    hide Record;
    hide LastTerminal;
    EventHonest(s.job.runs[i], e);
    LocalPreserves(s, AfterStream(s, i, Yields(e)), i);
  }

  lemma StreamStepKeeps(s: Sys, i: nat, step: StreamStep)
    requires Inv(s) && Awaits(s, i, AwaitNext)
    ensures Inv(AfterStream(s, i, step))
  {
    hide Inv;
    hide Catch;
    TaskAt(s, i);
    match step {
      case Yields(e) => EventStep(s, i, e);
      case Ends => MovePc(s, i, AwaitArtifacts);
      case Throws => CatchStep(s, i, FromAdapter);
    }
  }

  // A stream that closed with a terminal event recorded, or whose state is no longer RUNNING, is terminal.
  lemma StreamedIsTerminal(r: Run)
    requires Streaming(r) && r.state != RUNNING
    ensures Terminal(r.state)
  {
    LastTerminalIsTerminal(r.events);
  }

  lemma {:induction false} LastTerminalIsTerminal(events: seq<Events.EventType>)
    ensures LastTerminal(events).Some? ==> Terminal(LastTerminal(events).value)
  {
    if events != [] && TerminalToState(events[|events| - 1]).None? {
      LastTerminalIsTerminal(events[..|events| - 1]);
    }
  }

  // Ending is the only way out of the stream: either the protocol check fires or the state is terminal.
  lemma EndsTerminal(r: Run)
    requires Streaming(r) && !EndsOpen(r)
    ensures Terminal(r.state)
  {
    if r.state == RUNNING {
      LastTerminalIsTerminal(r.events);
    } else {
      StreamedIsTerminal(r);
    }
  }

  lemma ArtifactStepKeeps(s: Sys, i: nat, artifact: ArtifactStep)
    requires Inv(s) && Awaits(s, i, AwaitArtifacts)
    ensures Inv(AfterArtifact(s, i, artifact))
  {
    match artifact {
      case Artifact(id) => LocalPreserves(s, AfterArtifact(s, i, artifact), i);
      case CollectThrows => CatchStep(s, i, FromAdapter);
      case NoMore =>
        if EndsOpen(s.job.runs[i]) {
          CatchStep(s, i, ProtocolMismatch);
        } else {
          EndsTerminal(s.job.runs[i]);
          FinallyStep(s, i, false);
        }
    }
  }

  lemma CloseStep(s: Sys, i: nat)
    requires Inv(s) && InRange(s, i) && s.tasks[i].pc.AwaitClose?
    ensures Inv(FinalPersist(s, i, s.tasks[i].pc.rethrow))
  {
    TaskAt(s, i);
    hide Inv;
    LocalPreserves(s, FinalPersist(s, i, s.tasks[i].pc.rethrow), i);
  }

  lemma MovePc(s: Sys, i: nat, pc: Pc)
    requires Inv(s) && InRange(s, i) && InFlight(s.tasks[i].pc) && !pc.Unclaimed?
    requires TaskOk(s.job.runs[i], s.tasks[i].(pc := pc), i in s.active)
    ensures Inv(SetPc(s, i, pc))
  {
    TaskAt(s, i);
    hide Inv;
    LocalPreserves(s, SetPc(s, i, pc), i);
  }

  lemma StartStreamStep(s: Sys, i: nat)
    requires Inv(s) && InRange(s, i) && s.tasks[i].pc.AwaitRunningPersist?
    ensures Inv(StartStream(s, i))
  {
    TaskAt(s, i);
    hide Inv;
    LocalPreserves(s, StartStream(s, i), i);
  }

  lemma PersistStep(s: Sys, i: nat)
    requires Inv(s) && InRange(s, i)
    ensures Inv(AfterPersist(s, i))
  {
    hide Inv;
    TaskAt(s, i);
    match s.tasks[i].pc {
      case AwaitCancelPersist(op) => if Back(s, op) { MovePc(s, i, if Saved(s, op) then Done else Threw); }
      case AwaitFailPersist(op) => if Back(s, op) { MovePc(s, i, if Saved(s, op) then Done else Threw); }
      case AwaitStartingPersist(op) =>
        if Back(s, op) { MovePc(s, i, if Saved(s, op) then AwaitCreateSession else Threw); }
      case AwaitRunningPersist(op) =>
        if Back(s, op) { if Saved(s, op) { StartStreamStep(s, i); } else { CatchStep(s, i, FromDisk); } }
      case AwaitEventPersist(op) => if Back(s, op) { MovePc(s, i, if Saved(s, op) then AwaitNext else AwaitReturn); }
      case AwaitCatchPersist(op) => if Back(s, op) { FinallyStep(s, i, !Saved(s, op)); }
      case AwaitFinalPersist(op, rethrow) =>
        if Back(s, op) { MovePc(s, i, if rethrow || !Saved(s, op) then Threw else Done); }
      case _ =>
    }
  }

  // ----- Claiming -----

  // Every task already reported done is done, whatever the pool just learnt.
  ghost predicate PoolMoved(s: Sys, p: Pool.Pool) {
    && Pool.Valid(p) && p.items == |s.tasks| && |p.workers| == Pool.WorkerCount(|s.tasks|, s.limit)
    && (forall k :: 0 <= k < |s.tasks| && k in p.done ==> s.tasks[k].pc.Done?)
    && (forall w :: 0 <= w < |p.workers| && p.workers[w].Rejected? ==>
      p.workers[w].failed < |s.tasks| && s.tasks[p.workers[w].failed].pc.Threw?)
  }

  lemma BegunTask(s: Sys, i: nat, enabled: bool)
    requires InRange(s, i) && TaskOk(s.job.runs[i], s.tasks[i], i in s.active) && s.tasks[i].pc.Unclaimed?
    ensures var t := Begin(s, i, enabled);
      && InRange(t, i) && TaskOk(t.job.runs[i], t.tasks[i], i in t.active) && InFlight(t.tasks[i].pc)
      && RunHonest(t.job.runs[i])
      && t == s.(job := t.job, tasks := s.tasks[i := t.tasks[i]], queue := t.queue)
      && t.job == s.job.(runs := s.job.runs[i := t.job.runs[i]])
      && (t.queue == s.queue || t.queue == Queue.Enqueue(s.queue, t.job))
  {
  }

  // Beginning a freshly claimed run `i`: the pool `p` has just handed it out.
  lemma BeginStep(s: Sys, p: Pool.Pool, i: nat, enabled: bool)
    requires Inv(s) && PoolRuns(s.executor) && i < |s.tasks| && s.tasks[i].pc.Unclaimed?
    requires PoolMoved(s, p) && i == s.pool.next && p.next == i + 1 && i !in p.done
    ensures Inv(Begin(s.(pool := p), i, enabled))
  {
    hide Pool.Valid;
    hide Begin;
    hide TaskOk;
    hide Queue.Linked;
    var b := s.(pool := p);
    var t := Begin(b, i, enabled);
    assert TaskOk(s.job.runs[i], s.tasks[i], i in s.active);
    BegunTask(b, i, enabled);
    assert Shape(t) && RunsOk(t);
    assert PoolOk(t);
    assert s.executor.Pooling? || s.executor.CommittingFailure? || s.executor.FailurePublished?
      || s.executor.FailureUnsaved? by {
      assert !AllDone(s);
    }
    assert JobHonest(t.job);
    EnqueueKeeps(b, t);
  }

  lemma RetireStep(s: Sys, p: Pool.Pool)
    requires Inv(s) && PoolRuns(s.executor) && PoolMoved(s, p) && p.next == s.pool.next
    ensures Inv(s.(pool := p))
  {
  }

  lemma PoolFacts(s: Sys, w: nat)
    requires Inv(s) && w < |s.pool.workers|
    ensures PoolRuns(s.executor) && PoolMoved(s, s.pool)
    ensures s.pool.workers[w].Busy? ==> s.pool.workers[w].item < |s.tasks|
    ensures s.pool.next < |s.tasks| ==> s.tasks[s.pool.next].pc.Unclaimed? && s.pool.next !in s.pool.done
    ensures s.pool.next <= |s.tasks| && |s.tasks| == |s.job.runs|
  {
    if s.pool.workers[w].Busy? {
      assert s.pool.workers[w].item in Pool.Holds(s.pool.workers[w]);
    }
  }

  // What a worker that may go on does to the pool.
  lemma PoolActs(s: Sys, w: nat)
    requires w < |s.pool.workers| && PoolMoved(s, s.pool)
    requires s.pool.next < |s.tasks| ==> s.pool.next !in s.pool.done && s.tasks[s.pool.next].pc.Unclaimed?
    requires s.pool.workers[w].Busy? ==>
      s.pool.workers[w].item < |s.tasks| && Finished(s.tasks[s.pool.workers[w].item].pc)
    requires s.pool.workers[w].Ready? || s.pool.workers[w].Busy?
    ensures var worker := s.pool.workers[w];
      var ok := !worker.Busy? || s.tasks[worker.item].pc.Done?;
      var p := Pool.Next(s.pool, Pool.Act(w, ok));
      && PoolMoved(s, p)
      && p.next == (if ok && s.pool.next < |s.tasks| then s.pool.next + 1 else s.pool.next)
      && (s.pool.next < |s.tasks| ==> s.pool.next !in p.done)
  {
    var worker := s.pool.workers[w];
    var ok := !worker.Busy? || s.tasks[worker.item].pc.Done?;
    Pool.NextValid(s.pool, Pool.Act(w, ok));
    hide Pool.Valid;
  }

  lemma WorkerStep(s: Sys, w: nat, enabled: bool)
    requires Inv(s)
    ensures Inv(StepWorker(s, w, enabled))
  {
    hide Inv;
    hide Begin;
    hide PoolMoved;
    hide Pool.Next;
    if w < |s.pool.workers| {
      PoolFacts(s, w);
      var worker := s.pool.workers[w];
      if worker.Ready? || (worker.Busy? && Finished(s.tasks[worker.item].pc)) {
        PoolActs(s, w);
        var ok := !worker.Busy? || s.tasks[worker.item].pc.Done?;
        var p := Pool.Next(s.pool, Pool.Act(w, ok));
        if ok && s.pool.next < |s.tasks| {
          BeginStep(s, p, s.pool.next, enabled);
        } else {
          RetireStep(s, p);
        }
      }
    }
  }

  // ----- Cancelling -----

  lemma {:induction false} SweepStops(runs: seq<Run>, active: set<nat>, i: nat)
    ensures var stop := SweepStop(runs, active, i);
      && stop <= |runs|
      && (i <= |runs| ==> i <= stop)
      && (stop < |runs| ==> stop in active && !Terminal(runs[stop].state))
      && forall k :: i <= k < stop ==> Terminal(runs[k].state) || k !in active
    decreases |runs| - i
  {
    if i < |runs| && !(!Terminal(runs[i].state) && i in active) {
      SweepStops(runs, active, i + 1);
    }
  }

  // A change to the record that cancelling may make: flags, and CANCELLED for idle unfinished runs.
  ghost predicate Marked(s: Sys, t: Sys)
    requires Shape(s)
  {
    && t == s.(job := t.job, cancels := t.cancels, queue := t.queue)
    && |t.job.runs| == |s.job.runs|
    && t.job == s.job.(cancelRequested := t.job.cancelRequested, runs := t.job.runs)
    && (s.job.cancelRequested ==> t.job.cancelRequested)
    && (forall k :: 0 <= k < |s.job.runs| ==>
      || Core(t.job.runs[k]) == Core(s.job.runs[k])
      || (!Terminal(s.job.runs[k].state) && k !in s.active
          && Core(t.job.runs[k]) == Core(s.job.runs[k].(state := CANCELLED))))
    && (t.queue == s.queue || t.queue == Queue.Enqueue(s.queue, t.job))
  }

  lemma MarkedTasks(s: Sys, t: Sys)
    requires Shape(s) && RunsOk(s) && Marked(s, t)
    ensures Shape(t) && RunsOk(t)
  {
  }

  // Marking neither makes nor unmakes a success, and forgets no cancellation.
  lemma MarkedStatus(a: Job, b: Job)
    requires |a.runs| == |b.runs| && b == a.(cancelRequested := b.cancelRequested, runs := b.runs)
    requires a.cancelRequested ==> b.cancelRequested
    requires forall k :: 0 <= k < |a.runs| ==> (a.runs[k].state == SUCCEEDED <==> b.runs[k].state == SUCCEEDED)
    requires forall k :: 0 <= k < |a.runs| && a.runs[k].state == CANCELLED ==> b.runs[k].state == CANCELLED
    requires StatusHonest(a)
    ensures StatusHonest(b)
  {
    if SomeCancelled(a.runs) {
      var k :| 0 <= k < |a.runs| && a.runs[k].state == CANCELLED;
      assert b.runs[k].state == CANCELLED;
    }
  }

  lemma MarkedHonest(s: Sys, t: Sys)
    requires Inv(s) && Marked(s, t)
    ensures JobHonest(t.job)
    ensures AllDone(s) ==> SameCores(t.job.runs, s.job.runs)
  {
    hide Queue.Linked;
    hide PoolOk;
    hide SnapshotsOk;
    hide ExecutorOk;
    hide StatusHonest;
    assert AllDone(s) ==> forall i :: 0 <= i < |s.tasks| ==> Terminal(s.job.runs[i].state);
    hide RunsOk;
    MarkedStatus(s.job, t.job);
  }

  lemma MarkedExecutor(s: Sys, t: Sys)
    requires Inv(s) && Marked(s, t)
    requires JobHonest(t.job) && (AllDone(s) ==> SameCores(t.job.runs, s.job.runs))
    ensures ExecutorOk(t)
  {
    hide Queue.Linked;
    hide Pool.Valid;
    hide RunsOk;
    hide JobHonest;
  }

  lemma MarkedPreserves(s: Sys, t: Sys)
    requires Inv(s) && Marked(s, t)
    ensures Inv(t)
  {
    MarkedTasks(s, t);
    MarkedHonest(s, t);
    MarkedExecutor(s, t);
    EnqueueKeeps(s, t);
  }

  // adapter.cancel only ever reaches a session that was not closed.
  lemma CancelReachesOpenSession(s: Sys, i: nat)
    requires Inv(s) && InRange(s, i) && i in s.active
    ensures s.tasks[i].session.Some? && s.tasks[i].session.value.closes == 0 && InFlight(s.tasks[i].pc)
  {
    TaskAt(s, i);
    hide Inv;
  }

  lemma AskStep(s: Sys, i: nat)
    requires Inv(s) && InRange(s, i) && i in s.active
    ensures Inv(CallAdapterCancel(s, i))
  {
    hide Inv;
    TaskAt(s, i);
    CancelReachesOpenSession(s, i);
    LocalPreserves(s, CallAdapterCancel(s, i), i);
  }

  lemma SweepStep(s: Sys, i: nat)
    requires Inv(s)
    ensures Inv(Sweep(s, i).0)
  {
    hide ExecutorOk;
    hide PoolOk;
    hide Queue.Linked;
    hide SnapshotsOk;
    hide JobHonest;
    hide TaskOk;
    var stop := SweepStop(s.job.runs, s.active, i);
    SweepStops(s.job.runs, s.active, i);
    var t := s.(job := s.job.(runs := SweepRuns(s.job.runs, i, stop)));
    assert Marked(s, t);
    MarkedPreserves(s, t);
    if stop < |s.job.runs| {
      AskStep(t, stop);
    } else {
      assert Marked(s, Persist(t));
      MarkedPreserves(s, Persist(t));
    }
  }

  lemma CancelJobStep(s: Sys)
    requires Inv(s)
    ensures Inv(StartCancelJob(s))
  {
    var t := s.(job := s.job.(cancelRequested := true));
    assert Marked(s, t);
    MarkedPreserves(s, t);
    hide Inv;
    SweepStep(t, 0);
    CancelsFree(Sweep(t, 0).0, StartCancelJob(s).cancels);
  }

  // The cancel frames themselves are not part of the invariant.
  lemma CancelsFree(s: Sys, cancels: seq<Cancel>)
    requires Inv(s)
    ensures Inv(s.(cancels := cancels))
  {
    assert Marked(s, s.(cancels := cancels));
    MarkedPreserves(s, s.(cancels := cancels));
  }

  lemma FlagRun(s: Sys, i: nat, run: Run)
    requires Inv(s) && InRange(s, i) && Core(run) == Core(s.job.runs[i])
    ensures Inv(SetRun(s, i, run))
  {
    assert Marked(s, SetRun(s, i, run));
    MarkedPreserves(s, SetRun(s, i, run));
  }

  lemma CancelRunStep(s: Sys, i: nat)
    requires Inv(s)
    ensures Inv(StartCancelRun(s, i))
  {
    hide Inv;
    if i in s.active && InRange(s, i) {
      var t := SetRun(s, i, s.job.runs[i].(cancelRequested := true));
      FlagRun(s, i, s.job.runs[i].(cancelRequested := true));
      AskStep(t, i);
      CancelsFree(CallAdapterCancel(t, i), StartCancelRun(s, i).cancels);
    }
  }

  lemma PersistAlone(s: Sys)
    requires Inv(s)
    ensures Inv(Persist(s))
  {
    assert Marked(s, Persist(s));
    MarkedPreserves(s, Persist(s));
  }

  lemma LengthsAgree(s: Sys)
    requires Inv(s)
    ensures |s.tasks| == |s.job.runs|
  {
  }

  lemma ResumeSweepStep(s: Sys, c: nat, i: nat, threw: bool)
    requires Inv(s) && c < |s.cancels| && i < |s.job.runs|
    ensures Inv(ResumeSweep(s, c, i, threw))
  {
    hide Inv;
    NoteStep(s, i, threw);
    var t := NoteError(s, i, threw);
    SweepKeeps(t, i + 1);
    CancelsFree(Sweep(t, i + 1).0, ResumeSweep(s, c, i, threw).cancels);
    hide NoteError;
    hide Sweep;
  }

  lemma NoteStep(s: Sys, i: nat, threw: bool)
    requires Inv(s) && i < |s.job.runs|
    ensures Inv(NoteError(s, i, threw))
  {
    LengthsAgree(s);
    hide Inv;
    if threw {
      FlagRun(s, i, s.job.runs[i].(cancelError := true));
    }
  }

  lemma SweepKeeps(s: Sys, i: nat)
    requires Inv(s)
    ensures Inv(Sweep(s, i).0)
  {
    SweepStep(s, i);
    hide Inv;
    hide Sweep;
  }

  lemma AfterCancelStep(s: Sys, c: nat, threw: bool)
    requires Inv(s)
    ensures Inv(AfterCancel(s, c, threw))
  {
    hide Inv;
    if c < |s.cancels| {
      match s.cancels[c] {
        case JobAwaitAdapter(i) => if i < |s.job.runs| { ResumeSweepStep(s, c, i, threw); }
        case RunAwaitAdapter(_) =>
          if threw {
            CancelsFree(s, s.cancels[c := CancelReturned]);
          } else {
            var t := s.(cancels := s.cancels[c := RunAwaitPersist(Ticket(s))]);
            CancelsFree(s, t.cancels);
            PersistAlone(t);
          }
        case _ => CancelsFree(s, s.cancels[c := CancelReturned]);
      }
    }
  }

  // ----- The executor -----

  lemma SubmitStep(s: Sys)
    requires Inv(s)
    ensures Inv(AfterSubmit(s))
  {
  }

  lemma CommitFailureStep(s: Sys)
    requires Inv(s) && (s.executor.Pooling? || s.executor.Committing?)
    ensures Inv(CommitFailure(s))
  {
    var failed := s.job.(status := FAILED_JOB, error := true);
    assert JobHonest(failed);
    Queue.EnqueueLinked(s.queue, failed);
  }

  lemma {:induction false} CountBounds(runs: seq<Run>, state: RunState)
    ensures CountState(runs, state) <= |runs|
    ensures CountState(runs, state) == |runs| <==> forall i :: 0 <= i < |runs| ==> runs[i].state == state
    ensures CountState(runs, state) > 0 <==> exists i :: 0 <= i < |runs| && runs[i].state == state
  {
    if runs != [] {
      var init, last := runs[..|runs| - 1], |runs| - 1;
      CountBounds(init, state);
      if CountState(init, state) > 0 {
        var i :| 0 <= i < |init| && init[i].state == state;
        assert runs[i].state == state;
      }
      if exists i :: 0 <= i < |runs| && runs[i].state == state {
        var i :| 0 <= i < |runs| && runs[i].state == state;
        if i < last { assert init[i].state == state; }
      }
      if CountState(runs, state) == |runs| {
        assert forall i :: 0 <= i < |init| ==> runs[i] == init[i];
      }
      if forall i :: 0 <= i < |runs| ==> runs[i].state == state {
        assert forall i :: 0 <= i < |init| ==> runs[i] == init[i];
      }
    }
  }

  // The counting verdict says of the runs exactly what its name claims.
  lemma VerdictHonest(job: Job)
    requires |job.runs| >= 1 && !job.error && !job.recovered
    ensures StatusHonest(job.(status := Verdict(job)))
    ensures Verdict(job) != InProgress
  {
    CountBounds(job.runs, SUCCEEDED);
    CountBounds(job.runs, CANCELLED);
  }

  lemma ResolvedPoolIsDone(s: Sys)
    requires Inv(s) && PoolRuns(s.executor) && Pool.Resolves(s.pool)
    ensures AllDone(s)
  {
    assert s.pool.workers[0].Retired?;
    forall i | 0 <= i < |s.tasks|
      ensures s.tasks[i].pc.Done?
    {
      assert forall w :: 0 <= w < |s.pool.workers| ==> Pool.Holds(s.pool.workers[w]) == {};
      assert i in s.pool.done;
    }
  }

  lemma SettleStep(s: Sys)
    requires Inv(s) && s.executor.Pooling?
    ensures Inv(SettlePool(s))
  {
    if Pool.Rejects(s.pool) {
      CommitFailureStep(s);
    } else if Pool.Resolves(s.pool) {
      ResolvedPoolIsDone(s);
      VerdictHonest(s.job);
      hide Pool.Valid;
      var copy := s.job.(status := Verdict(s.job));
      assert JobHonest(copy);
      Queue.EnqueueLinked(s.queue, copy);
      hide Queue.Linked;
      var t := SettlePool(s);
      assert CommitOk(t, Ticket(s), Verdict(s.job));
    }
  }

  // The status is as honest about a job as about a snapshot that shows the same runs.
  lemma SameRunsHonest(snapshot: Job, job: Job)
    requires JobHonest(snapshot) && SameCores(snapshot.runs, job.runs) && !snapshot.error && !snapshot.recovered
    requires snapshot.cancelRequested ==> job.cancelRequested
    ensures JobHonest(job.(status := snapshot.status))
  {
    var shown := snapshot.(cancelRequested := job.cancelRequested, runs := job.runs);
    assert forall i :: 0 <= i < |job.runs| ==> Core(job.runs[i]) == Core(snapshot.runs[i]);
    MarkedStatus(snapshot, shown);
    assert StatusHonest(shown);
  }

  lemma SnapshotAt(s: Sys, k: nat)
    requires Inv(s) && k < |s.queue.ops|
    ensures JobHonest(s.queue.ops[k].snapshot)
  {
    hide ExecutorOk;
    hide RunsOk;
    hide PoolOk;
    hide JobHonest;
    hide Queue.Linked;
  }

  lemma PublishHonest(s: Sys, op: nat, verdict: Status)
    requires Inv(s) && s.executor == Committing(op, verdict)
    ensures JobHonest(s.job.(status := verdict))
  {
    ExecutorAt(s);
    hide SameCores;
    SnapshotAt(s, op);
    SameRunsHonest(s.queue.ops[op].snapshot, s.job);
    hide Inv;
    hide JobHonest;
  }

  lemma StatusOnly(s: Sys, t: Sys)
    requires Inv(s) && t == s.(job := t.job, executor := t.executor) && t.job.runs == s.job.runs
    requires PoolRuns(s.executor) && PoolRuns(t.executor) && JobHonest(t.job) && ExecutorOk(t)
    ensures Inv(t)
  {
    hide JobHonest;
    hide Queue.Linked;
    hide ExecutorOk;
  }

  lemma PublishedNow(s: Sys, op: nat, verdict: Status)
    requires ExecutorOk(s) && s.executor == Committing(op, verdict) && Back(s, op) && Saved(s, op)
    ensures ExecutorOk(AfterCommit(s))
  {
    hide SameCores;
  }

  lemma PublishStep(s: Sys, op: nat, verdict: Status)
    requires Inv(s) && s.executor == Committing(op, verdict) && Back(s, op) && Saved(s, op)
    ensures Inv(AfterCommit(s))
  {
    PublishHonest(s, op, verdict);
    assert ExecutorOk(s);
    hide Inv;
    PublishedNow(s, op, verdict);
    hide ExecutorOk;
    StatusOnly(s, AfterCommit(s));
  }

  lemma PublishFailureStep(s: Sys, op: nat)
    requires Inv(s) && s.executor == CommittingFailure(op) && Back(s, op)
    ensures Inv(AfterCommit(s))
  {
    hide Queue.Linked;
    hide Pool.Valid;
    hide TaskOk;
  }

  lemma CommitStep(s: Sys)
    requires Inv(s)
    ensures Inv(AfterCommit(s))
  {
    hide Inv;
    match s.executor {
      case Committing(op, verdict) =>
        if Back(s, op) {
          if Saved(s, op) { PublishStep(s, op, verdict); } else { CommitFailureStep(s); }
        }
      case CommittingFailure(op) => if Back(s, op) { PublishFailureStep(s, op); }
      case _ =>
    }
  }

  // ----- The disk -----

  // What one answer of the file system may change: the phase of write `k`, and the disk with it.
  predicate Written(q: Queue.Queue<Job>, r: Queue.Queue<Job>, k: nat) {
    && k < |q.ops| == |r.ops|
    && (forall j :: 0 <= j < |q.ops| ==> r.ops[j].snapshot == q.ops[j].snapshot)
    && (forall j :: 0 <= j < |q.ops| && j != k ==> r.ops[j] == q.ops[j])
    && !Queue.Settled(q.ops[k].phase) && (forall j :: k < j < |q.ops| ==> q.ops[j].phase.Waiting?)
    && r.disk == (if r.ops[k].phase.Landed? then Some(q.ops[k].snapshot) else q.disk)
  }

  lemma AdvanceWrites(q: Queue.Queue<Job>, k: nat, ok: bool)
    requires Queue.Linked(q) && Queue.Advance(q, k, ok) != q
    ensures Written(q, Queue.Advance(q, k, ok), k) && Queue.Linked(Queue.Advance(q, k, ok))
  {
    Queue.AdvanceLinked(q, k, ok);
    hide Queue.Linked;
    hide Queue.MayStart;
  }

  lemma WrittenSnapshots(s: Sys, t: Sys, k: nat)
    requires SnapshotsOk(s) && t == s.(queue := t.queue) && Written(s.queue, t.queue, k)
    ensures SnapshotsOk(t)
  {
    hide JobHonest;
  }

  lemma DiskWriteStep(s: Sys, k: nat, ok: bool)
    requires Inv(s)
    ensures Inv(s.(queue := Queue.Advance(s.queue, k, ok)))
  {
    assert Queue.Linked(s.queue) && SnapshotsOk(s);
    var t := s.(queue := Queue.Advance(s.queue, k, ok));
    hide Inv;
    if t.queue != s.queue {
      AdvanceWrites(s.queue, k, ok);
      WrittenSnapshots(s, t, k);
      DiskWriteExecutor(s, t, k);
      QueueOnly(s, t);
    }
    hide Written;
    hide SnapshotsOk;
    hide Queue.Linked;
    hide Queue.Advance;
  }

  lemma WrittenCommit(s: Sys, t: Sys, k: nat, op: nat, verdict: Status)
    requires t == s.(queue := t.queue) && Written(s.queue, t.queue, k) && CommitOk(s, op, verdict)
    ensures CommitOk(t, op, verdict)
  {
    hide SameCores;
  }

  lemma WrittenDisk(s: Sys, t: Sys, k: nat, op: nat, verdict: Status, at: nat)
    requires t == s.(queue := t.queue) && Written(s.queue, t.queue, k) && CommitOk(s, op, verdict) && op < at
    requires s.queue.ops[op].phase.Landed? ==> DiskSince(s, op, verdict, at)
    requires forall j :: at <= j < |s.queue.ops| ==> s.queue.ops[j].snapshot.status == verdict
    ensures t.queue.ops[op].phase.Landed? ==> DiskSince(t, op, verdict, at)
  {
    hide SameCores;
  }

  lemma WrittenPublished(s: Sys, t: Sys, k: nat, op: nat, verdict: Status, at: nat)
    requires t == s.(queue := t.queue) && Written(s.queue, t.queue, k) && PublishedOk(s, op, verdict, at)
    ensures PublishedOk(t, op, verdict, at)
  {
    WrittenCommit(s, t, k, op, verdict);
    WrittenDisk(s, t, k, op, verdict, at);
    hide CommitOk;
    hide DiskSince;
  }

  lemma DiskWriteExecutor(s: Sys, t: Sys, k: nat)
    requires Inv(s) && t == s.(queue := t.queue) && Written(s.queue, t.queue, k)
    ensures ExecutorOk(t)
  {
    ExecutorAt(s);
    hide Inv;
    match s.executor {
      case Committing(op, verdict) =>
        WrittenCommit(s, t, k, op, verdict);
        WrittenDisk(s, t, k, op, verdict, |s.queue.ops|);
      case Published(op, verdict, at) => WrittenPublished(s, t, k, op, verdict, at);
      case _ =>
    }
    hide PublishedOk;
    hide FrozenFrom;
    hide DiskSince;
    hide AllDone;
  }

  lemma QueueOnly(s: Sys, t: Sys)
    requires Inv(s) && t == s.(queue := t.queue) && Queue.Linked(t.queue) && SnapshotsOk(t) && ExecutorOk(t)
    ensures Inv(t)
  {
  }

  // Changing nothing but `released` flags and the map entry leaves every claim about the writes.
  lemma ReleaseExecutor(s: Sys, t: Sys)
    requires Inv(s) && t == s.(queue := t.queue) && t.queue.disk == s.queue.disk
    requires |t.queue.ops| == |s.queue.ops|
    requires forall j :: 0 <= j < |s.queue.ops| ==>
      t.queue.ops[j].snapshot == s.queue.ops[j].snapshot && t.queue.ops[j].phase == s.queue.ops[j].phase
    ensures ExecutorOk(t) && SnapshotsOk(t)
  {
    hide PoolOk;
    hide RunsOk;
    hide JobHonest;
    hide Queue.Linked;
    hide SameCores;
  }

  lemma ReleaseStep(s: Sys, k: nat)
    requires Inv(s)
    ensures Inv(s.(queue := Queue.Release(s.queue, k)))
  {
    var t := s.(queue := Queue.Release(s.queue, k));
    assert Queue.Linked(s.queue);
    hide Inv;
    Queue.ReleaseLinked(s.queue, k);
    hide Queue.Linked;
    ReleaseExecutor(s, t);
    QueueOnly(s, t);
  }

  lemma RepairHonest(job: Job)
    requires JobHonest(job)
    ensures JobHonest(Repair(job))
    ensures Repair(job).status != InProgress
    ensures forall i :: 0 <= i < |job.runs| ==> Terminal(Repair(job).runs[i].state)
  {
  }

  lemma ReloadedInv(t: Sys)
    requires t.executor.Reloaded? && t.limit >= 1 && |t.tasks| == |t.job.runs| >= 1
    requires t.active == {} && t.pool == Pool.Start(0, 0)
    requires forall i :: 0 <= i < |t.tasks| ==> t.tasks[i] == Task(Done, 0, None) && Terminal(t.job.runs[i].state)
    requires Queue.Linked(t.queue) && SnapshotsOk(t) && JobHonest(t.job) && t.job.status != InProgress
    ensures Inv(t)
  {
    hide Queue.Linked;
    hide JobHonest;
  }

  lemma RestartStep(s: Sys)
    requires Inv(s)
    ensures Inv(AfterRestart(s))
  {
    if s.queue.disk.Some? {
      assert SnapshotsOk(s) && s.limit >= 1 && |s.job.runs| >= 1;
      hide Inv;
      RepairHonest(s.queue.disk.value);
      hide JobHonest;
      var t := AfterRestart(s);
      Queue.EnqueueLinked(Queue.Empty(s.queue.disk), t.job);
      assert Queue.Linked(t.queue);
      hide Queue.Linked;
      ReloadedInv(t);
    }
  }

  // ----- Every schedule -----

  lemma InitInv(n: nat, limit: int)
    requires n >= 1 && limit >= 1
    ensures Inv(Init(n, limit))
  {
    var s := Init(n, limit);
    Queue.EnqueueLinked(Queue.Empty<Job>(None), s.job);
  }

  lemma NextInv(s: Sys, a: Action)
    requires Inv(s)
    ensures Inv(Next(s, a))
  {
    hide Inv;
    hide AfterSubmit;
    hide StepWorker;
    hide AfterHealth;
    hide AfterPersist;
    hide AfterSession;
    hide AfterStream;
    hide AfterArtifact;
    hide Catch;
    hide FinalPersist;
    hide SettlePool;
    hide AfterCommit;
    hide StartCancelJob;
    hide StartCancelRun;
    hide AfterCancel;
    hide AfterRestart;
    hide TaskOk;
    match a {
      case SubmitResumes => SubmitStep(s);
      case WorkerResumes(w, enabled) => WorkerStep(s, w, enabled);
      case HealthReturns(i, health) => if Awaits(s, i, AwaitHealth) { HealthStep(s, i, health); }
      case PersistReturns(i) => if InRange(s, i) { PersistStep(s, i); }
      case SessionReturns(i, ok) => if Awaits(s, i, AwaitCreateSession) { SessionStep(s, i, ok); }
      case StreamReturns(i, step) => if Awaits(s, i, AwaitNext) { StreamStepKeeps(s, i, step); }
      case IteratorReturns(i) => if Awaits(s, i, AwaitReturn) { IteratorStep(s, i); }
      case ArtifactReturns(i, artifact) => if Awaits(s, i, AwaitArtifacts) { ArtifactStepKeeps(s, i, artifact); }
      case CloseReturns(i) => if InRange(s, i) && s.tasks[i].pc.AwaitClose? { CloseStep(s, i); }
      case PoolSettles => if s.executor.Pooling? { SettleStep(s); }
      case CommitReturns => CommitStep(s);
      case CancelJob => CancelJobStep(s);
      case CancelRun(i) => CancelRunStep(s, i);
      case CancelReturns(c, threw) => AfterCancelStep(s, c, threw);
      case DiskWrite(op, ok) => DiskWriteStep(s, op, ok);
      case WriteReturns(op) => ReleaseStep(s, op);
      case Restart => RestartStep(s);
    }
  }

  lemma {:induction false} ExecInv(s: Sys, actions: seq<Action>)
    requires Inv(s)
    ensures Inv(Exec(s, actions))
    decreases |actions|
  {
    if actions != [] {
      NextInv(s, actions[0]);
      ExecInv(Next(s, actions[0]), actions[1..]);
    }
  }

  // The invariant holds after any schedule of a job with at least one run and one worker.
  lemma Reachable(n: nat, limit: int, actions: seq<Action>)
    requires n >= 1 && limit >= 1
    ensures Inv(Exec(Init(n, limit), actions))
  {
    InitInv(n, limit);
    ExecInv(Init(n, limit), actions);
  }
}