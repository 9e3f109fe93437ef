// Sessions, the concurrency bound, job cancellation and the edges of the gateway.
module GatewaySessions {
  import opened Wrappers
  import opened GatewayModel
  import opened GatewayInvariant
  import opened GatewayTheorems
  import Queue = PersistQueue
  import Pool = WorkerPool

  // ----- Session bracketing -----

  // startRun at most once, close at most once, no cancel after it.
  predicate Bracketed(session: Session) {
    session.starts <= 1 && session.closes <= 1 && !session.lateCancel
  }

  // On every path through #executeRun: activeRuns holds a run exactly while its frame has a session
  // that is not closed, which is never so once the frame is gone.
  lemma SessionsAreBracketed(n: nat, limit: int, actions: seq<Action>, i: nat)
    requires n >= 1 && limit >= 1
    ensures var s := Exec(Init(n, limit), actions);
      && (i in s.active <==> i < |s.tasks| && s.tasks[i].session.Some? && s.tasks[i].session.value.closes == 0)
      && (i < |s.tasks| && s.tasks[i].session.Some? ==> Bracketed(s.tasks[i].session.value))
      && (i < |s.tasks| && Finished(s.tasks[i].pc) ==> i !in s.active)
  {
    Reachable(n, limit, actions);
    var s := Exec(Init(n, limit), actions);
    assert i in s.active ==> i < |s.tasks|;
    assert i < |s.tasks| ==> TaskOk(s.job.runs[i], s.tasks[i], i in s.active);
  }

  // ----- The concurrency bound -----

  lemma ActiveIsHeld(s: Sys)
    requires Inv(s)
    ensures s.active <= Pool.InFlight(s.pool.workers)
  {
    forall i | i in s.active
      ensures i in Pool.InFlight(s.pool.workers)
    {
      ActiveHolder(s, i);
    }
    hide Inv;
  }

  lemma ActiveInFlight(s: Sys, i: nat)
    requires Inv(s) && i in s.active
    ensures i < |s.tasks| && InFlight(s.tasks[i].pc)
  {
    assert i < |s.tasks|;
    TaskAt(s, i);
    hide Inv;
  }

  lemma ActiveHolder(s: Sys, i: nat)
    requires Inv(s) && i in s.active
    ensures i in Pool.InFlight(s.pool.workers)
  {
    ActiveInFlight(s, i);
    NotFrozen(s, i);
    PoolAt(s);
    hide Inv;
    var w :| 0 <= w < |s.pool.workers| && i in Pool.Holds(s.pool.workers[w]);
    assert s.pool.workers[w].Busy?;
  }

  lemma SubsetSize<T>(a: set<T>, b: set<T>)
    requires a <= b
    ensures |a| <= |b|
  {
    assert b == a + (b - a);
  }

  lemma ActiveBound(s: Sys)
    requires Inv(s)
    ensures |s.active| <= s.limit
  {
    ActiveIsHeld(s);
    SubsetSize(s.active, Pool.InFlight(s.pool.workers));
    Pool.InFlightBound(s.pool.workers);
    assert |s.pool.workers| <= s.limit;
  }

  lemma {:induction false} LimitKept(s: Sys, actions: seq<Action>)
    ensures Exec(s, actions).limit == s.limit
    decreases |actions|
  {
    if actions != [] {
      LimitStep(s, actions[0]);
      LimitKept(Next(s, actions[0]), actions[1..]);
    }
  }

  lemma LimitStep(s: Sys, a: Action)
    ensures Next(s, a).limit == s.limit
  {
    if a.Restart? {
    } else if Background(a) {
      BackgroundKeeps(s, a);
      hide Next;
    } else {
      OuterFrame(s, a);
      hide Next;
    }
  }

  // A job never has more than maxConcurrency sessions in activeRuns.
  lemma BoundedConcurrency(n: nat, limit: int, actions: seq<Action>)
    requires n >= 1 && limit >= 1
    ensures |Exec(Init(n, limit), actions).active| <= limit
  {
    Reachable(n, limit, actions);
    ActiveBound(Exec(Init(n, limit), actions));
    LimitKept(Init(n, limit), actions);
  }

  // ----- Cancelling a job -----

  // The run was not begun when the job was cancelled: it stays away from the adapter and, once
  // claimed, is CANCELLED.
  predicate Barred(s: Sys, i: nat) {
    && InRange(s, i)
    && s.job.cancelRequested
    && s.tasks[i].session.None? && s.tasks[i].healthChecks == 0
    && match s.tasks[i].pc
      case Unclaimed => true
      case AwaitCancelPersist(_) => s.job.runs[i].state == CANCELLED
      case Done => s.job.runs[i].state == CANCELLED
      case Threw => s.job.runs[i].state == CANCELLED
      case _ => false
  }

  lemma OwnBarred(s: Sys, a: Action, i: nat)
    requires Barred(s, i) && Resumed(a) == Some(i)
    ensures Barred(Next(s, a), i)
  {
  }

  lemma OthersKept(s: Sys, t: Sys, i: nat)
    requires Barred(s, i) && InRange(t, i) && t.tasks[i] == s.tasks[i] && t.job.cancelRequested
    requires t.job.runs[i].state == s.job.runs[i].state || (s.job.runs[i].state == QUEUED)
    ensures Barred(t, i)
  {
  }

  lemma PersistElsewhere(s: Sys, k: nat, i: nat)
    requires InRange(s, i) && InRange(s, k) && k != i
    ensures var t := AfterPersist(s, k);
      InRange(t, i) && t.tasks[i] == s.tasks[i] && t.job.runs[i] == s.job.runs[i]
        && t.job.cancelRequested == s.job.cancelRequested
  {
  }

  lemma ArtifactElsewhere(s: Sys, k: nat, artifact: ArtifactStep, i: nat)
    requires InRange(s, i) && InRange(s, k) && k != i
    ensures var t := AfterArtifact(s, k, artifact);
      InRange(t, i) && t.tasks[i] == s.tasks[i] && t.job.runs[i] == s.job.runs[i]
        && t.job.cancelRequested == s.job.cancelRequested
  {
  }

  lemma HealthElsewhere(s: Sys, k: nat, health: Health, i: nat)
    requires InRange(s, i) && InRange(s, k) && k != i
    ensures var t := AfterHealth(s, k, health);
      InRange(t, i) && t.tasks[i] == s.tasks[i] && t.job.runs[i] == s.job.runs[i]
        && t.job.cancelRequested == s.job.cancelRequested
  {
  }

  lemma SessionElsewhere(s: Sys, k: nat, ok: bool, i: nat)
    requires InRange(s, i) && InRange(s, k) && k != i
    ensures var t := AfterSession(s, k, ok);
      InRange(t, i) && t.tasks[i] == s.tasks[i] && t.job.runs[i] == s.job.runs[i]
        && t.job.cancelRequested == s.job.cancelRequested
  {
  }

  lemma StreamElsewhere(s: Sys, k: nat, step: StreamStep, i: nat)
    requires InRange(s, i) && InRange(s, k) && k != i
    ensures var t := AfterStream(s, k, step);
      InRange(t, i) && t.tasks[i] == s.tasks[i] && t.job.runs[i] == s.job.runs[i]
        && t.job.cancelRequested == s.job.cancelRequested
  {
  }

  lemma Elsewhere(s: Sys, a: Action, i: nat)
    requires InRange(s, i) && Resumed(a).Some? && Resumed(a) != Some(i)
    ensures var t := Next(s, a);
      InRange(t, i) && t.tasks[i] == s.tasks[i] && t.job.runs[i] == s.job.runs[i]
        && t.job.cancelRequested == s.job.cancelRequested
  {
    hide AfterPersist;
    hide AfterArtifact;
    hide AfterHealth;
    hide AfterSession;
    hide AfterStream;
    match a {
      case PersistReturns(k) => if InRange(s, k) { PersistElsewhere(s, k, i); }
      case ArtifactReturns(k, artifact) =>
        if Awaits(s, k, AwaitArtifacts) { ArtifactElsewhere(s, k, artifact, i); }
      case HealthReturns(k, health) =>
        if Awaits(s, k, AwaitHealth) { HealthElsewhere(s, k, health, i); }
      case SessionReturns(k, ok) =>
        if Awaits(s, k, AwaitCreateSession) { SessionElsewhere(s, k, ok, i); }
      case StreamReturns(k, step) => if Awaits(s, k, AwaitNext) { StreamElsewhere(s, k, step, i); }
      case IteratorReturns(k) =>
      case CloseReturns(k) =>
    }
  }

  lemma BeginBarred(s: Sys, p: Pool.Pool, i: nat, enabled: bool)
    requires Barred(s, i) && s.tasks[i].pc.Unclaimed?
    ensures Barred(Begin(s.(pool := p), i, enabled), i)
  {
  }

  lemma WorkerBarred(s: Sys, w: nat, enabled: bool, i: nat)
    requires Inv(s) && Barred(s, i)
    ensures Barred(StepWorker(s, w, enabled), i)
  {
    WorkerClaims(s, w, enabled);
    WorkerFrame(s, w, enabled);
    var t := StepWorker(s, w, enabled);
    hide Inv;
    hide StepWorker;
    if t != s.(pool := t.pool) {
      if s.pool.next == i {
        BeginBarred(s, t.pool, i, enabled);
      } else {
        BeginTouches(s.(pool := t.pool), s.pool.next, enabled);
      }
    }
    hide Begin;
  }

  lemma SweepBarred(s: Sys, from: nat, i: nat)
    requires Barred(s, i)
    ensures Barred(Sweep(s, from).0, i)
  {
  }

  lemma ResumeBarred(s: Sys, c: nat, k: nat, threw: bool, i: nat)
    requires Barred(s, i) && c < |s.cancels| && k < |s.job.runs|
    ensures Barred(ResumeSweep(s, c, k, threw), i)
  {
    SweepBarred(NoteError(s, k, threw), k + 1, i);
    hide Sweep;
  }

  lemma ClientBarred(s: Sys, a: Action, i: nat)
    requires Barred(s, i) && (a.CancelJob? || a.CancelRun? || a.CancelReturns?)
    ensures Barred(Next(s, a), i)
  {
    match a {
      case CancelJob =>
        SweepBarred(s.(job := s.job.(cancelRequested := true)), 0, i);
        hide Sweep;
      case CancelRun(k) =>
      case CancelReturns(c, threw) =>
        hide ResumeSweep;
        if c < |s.cancels| && s.cancels[c].JobAwaitAdapter? && s.cancels[c].run < |s.job.runs| {
          ResumeBarred(s, c, s.cancels[c].run, threw, i);
        }
    }
  }

  // Submitting, settling, committing and the file system leave runs and frames alone.
  predicate Background(a: Action) {
    a.SubmitResumes? || a.PoolSettles? || a.CommitReturns? || a.DiskWrite? || a.WriteReturns?
  }

  lemma BackgroundBarred(s: Sys, a: Action, i: nat)
    requires Barred(s, i) && Background(a)
    ensures Barred(Next(s, a), i)
  {
    assert Next(s, a).tasks == s.tasks && Next(s, a).job.runs == s.job.runs
      && Next(s, a).job.cancelRequested == s.job.cancelRequested;
  }

  lemma BarredStep(s: Sys, a: Action, i: nat)
    requires Inv(s) && Barred(s, i) && !a.Restart?
    ensures Barred(Next(s, a), i)
  {
    hide Inv;
    if a.WorkerResumes? {
      WorkerBarred(s, a.w, a.enabled, i);
    } else if a.CancelJob? || a.CancelRun? || a.CancelReturns? {
      ClientBarred(s, a, i);
    } else if Background(a) {
      BackgroundBarred(s, a, i);
    } else if Resumed(a) == Some(i) {
      OwnBarred(s, a, i);
    } else {
      Elsewhere(s, a, i);
    }
  }

  lemma {:induction false} BarredForever(s: Sys, actions: seq<Action>, i: nat)
    requires Inv(s) && Barred(s, i) && NoRestart(actions)
    ensures Barred(Exec(s, actions), i)
    decreases |actions|
  {
    if actions != [] {
      NextInv(s, actions[0]);
      BarredStep(s, actions[0], i);
      assert NoRestart(actions[1..]);
      BarredForever(Next(s, actions[0]), actions[1..], i);
    }
  }

  // A run that has not been begun when cancelJob lands never sees a health check, a session or a
  // stream, and is CANCELLED from the moment it is claimed.
  lemma CancelledBeforeItStarts(n: nat, limit: int, before: seq<Action>, after: seq<Action>, i: nat)
    requires n >= 1 && limit >= 1 && NoRestart(after)
    requires var s := Exec(Init(n, limit), before); i < |s.tasks| && s.tasks[i].pc.Unclaimed?
    ensures var t := Exec(Next(Exec(Init(n, limit), before), CancelJob), after);
      && i < |t.tasks| && i < |t.job.runs|
      && t.job.cancelRequested
      && t.tasks[i].healthChecks == 0 && t.tasks[i].session.None?
      && (!t.tasks[i].pc.Unclaimed? ==> t.job.runs[i].state == CANCELLED)
  {
    Reachable(n, limit, before);
    var s := Exec(Init(n, limit), before);
    NextInv(s, CancelJob);
    BarredByCancel(s, i);
    BarredForever(Next(s, CancelJob), after, i);
  }

  lemma BarredByCancel(s: Sys, i: nat)
    requires Inv(s) && i < |s.tasks| && s.tasks[i].pc.Unclaimed?
    ensures Barred(Next(s, CancelJob), i)
  {
    hide Inv;
    hide Sweep;
    LengthsAgree(s);
    TaskAt(s, i);
    SweepBarred(s.(job := s.job.(cancelRequested := true)), 0, i);
  }

  // Every run is barred, and a verdict chosen so far is CANCELLED.
  predicate AllBarred(s: Sys) {
    && |s.tasks| == |s.job.runs|
    && (forall i :: 0 <= i < |s.tasks| ==> Barred(s, i))
    && match s.executor
      case Committing(_, verdict) => verdict == CANCELLED_JOB && (s.job.status == InProgress || s.job.error)
      case Published(_, verdict, _) => verdict == CANCELLED_JOB && s.job.status == CANCELLED_JOB
      case Reloaded => false
      case _ => s.job.status == InProgress || s.job.error
  }

  // The parts of the state only the executor's own steps touch.
  predicate Frame(s: Sys, t: Sys) {
    && t.executor == s.executor && |t.tasks| == |s.tasks| && t.limit == s.limit
    && t.job.status == s.job.status && t.job.error == s.job.error && t.job.persistenceError == s.job.persistenceError
    && (s.job.cancelRequested ==> t.job.cancelRequested)
    && (t.queue == s.queue || t.queue == Queue.Enqueue(s.queue, t.job))
  }

  // At most one write was enqueued.
  predicate OneCall(q: Queue.Queue<Job>, r: Queue.Queue<Job>) {
    r == q || (|r.ops| > 0 && r == Queue.Enqueue(q, r.ops[|r.ops| - 1].snapshot))
  }

  lemma PersistFrame(s: Sys, k: nat)
    requires InRange(s, k)
    ensures Frame(s, AfterPersist(s, k))
  {
  }

  lemma ArtifactFrame(s: Sys, k: nat, artifact: ArtifactStep)
    requires InRange(s, k)
    ensures Frame(s, AfterArtifact(s, k, artifact))
  {
  }

  lemma StreamFrame(s: Sys, k: nat, step: StreamStep)
    requires InRange(s, k)
    ensures Frame(s, AfterStream(s, k, step))
  {
  }

  lemma SessionFrame(s: Sys, k: nat, ok: bool)
    requires InRange(s, k)
    ensures Frame(s, AfterSession(s, k, ok))
  {
  }

  lemma HealthFrame(s: Sys, k: nat, health: Health)
    requires InRange(s, k)
    ensures Frame(s, AfterHealth(s, k, health))
  {
  }

  lemma RunFrame(s: Sys, a: Action)
    requires Resumed(a).Some?
    ensures Frame(s, Next(s, a))
  {
    hide AfterPersist;
    hide AfterArtifact;
    hide AfterHealth;
    hide AfterSession;
    hide AfterStream;
    match a {
      case PersistReturns(k) => if InRange(s, k) { PersistFrame(s, k); }
      case ArtifactReturns(k, artifact) => if Awaits(s, k, AwaitArtifacts) { ArtifactFrame(s, k, artifact); }
      case HealthReturns(k, health) => if Awaits(s, k, AwaitHealth) { HealthFrame(s, k, health); }
      case SessionReturns(k, ok) => if Awaits(s, k, AwaitCreateSession) { SessionFrame(s, k, ok); }
      case StreamReturns(k, step) => if Awaits(s, k, AwaitNext) { StreamFrame(s, k, step); }
      case IteratorReturns(k) =>
      case CloseReturns(k) =>
    }
  }

  lemma BeginFrame(s: Sys, k: nat, enabled: bool)
    requires InRange(s, k)
    ensures Frame(s, Begin(s, k, enabled))
  {
  }

  lemma WorkerFrame(s: Sys, w: nat, enabled: bool)
    ensures Frame(s, StepWorker(s, w, enabled))
  {
    var t := StepWorker(s, w, enabled);
    if InRange(s, s.pool.next) {
      BeginFrame(s.(pool := t.pool), s.pool.next, enabled);
    }
    hide Begin;
    hide Pool.Next;
  }

  lemma SweepFrame(s: Sys, from: nat)
    ensures Frame(s, Sweep(s, from).0)
  {
  }

  lemma ResumeFrame(s: Sys, c: nat, k: nat, threw: bool)
    requires c < |s.cancels| && k < |s.job.runs|
    ensures Frame(s, ResumeSweep(s, c, k, threw))
  {
    SweepFrame(NoteError(s, k, threw), k + 1);
    hide Sweep;
  }

  lemma ClientFrame(s: Sys, a: Action)
    requires a.CancelJob? || a.CancelRun? || a.CancelReturns?
    ensures Frame(s, Next(s, a))
  {
    match a {
      case CancelJob =>
        SweepFrame(s.(job := s.job.(cancelRequested := true)), 0);
        hide Sweep;
      case CancelRun(k) =>
      case CancelReturns(c, threw) =>
        hide ResumeSweep;
        if c < |s.cancels| && s.cancels[c].JobAwaitAdapter? && s.cancels[c].run < |s.job.runs| {
          ResumeFrame(s, c, s.cancels[c].run, threw);
        }
    }
  }

  lemma OuterFrame(s: Sys, a: Action)
    requires !Background(a) && !a.Restart?
    ensures Frame(s, Next(s, a))
  {
    if Resumed(a).Some? {
      RunFrame(s, a);
    } else if a.WorkerResumes? {
      WorkerFrame(s, a.w, a.enabled);
    } else {
      ClientFrame(s, a);
    }
  }

  lemma BackgroundKeeps(s: Sys, a: Action)
    requires Background(a)
    ensures Next(s, a).job.cancelRequested == s.job.cancelRequested && Next(s, a).limit == s.limit
  {
  }

  // ----- Durable verdicts -----

  // The four verdicts by what they say of the runs; they exclude each other and leave no case out.
  predicate Judged(job: Job) {
    var all, none := AllSucceeded(job.runs), NoneSucceeded(job.runs);
    var cancelled := !all && none && job.cancelRequested && SomeCancelled(job.runs);
    && (job.status == COMPLETED <==> all)
    && (job.status == PARTIAL <==> !all && !none)
    && (job.status == CANCELLED_JOB <==> cancelled)
    && (job.status == FAILED_JOB <==> !all && none && !cancelled)
  }

  // A write of a copy that differs from a job without an engine error in its status alone.
  predicate Verdicts(q: Queue.Queue<Job>, op: nat, verdict: Status) {
    Carries(q, op, verdict) && Judged(q.ops[op].snapshot) && !q.ops[op].snapshot.error
  }

  predicate Carries(q: Queue.Queue<Job>, op: nat, status: Status) {
    op < |q.ops| && q.ops[op].snapshot.status == status
  }

  // A write that says the engine failed.
  predicate Reports(q: Queue.Queue<Job>, op: nat) {
    Carries(q, op, FAILED_JOB) && q.ops[op].snapshot.error
  }

  // Why the engine failed: a frame threw, or the verdict could not be saved.
  predicate EngineFailed(s: Sys) {
    || Pool.Rejects(s.pool)
    || exists k :: 0 <= k < |s.queue.ops| && VerdictLost(s.queue, k)
  }

  predicate VerdictLost(q: Queue.Queue<Job>, k: nat) {
    k < |q.ops| && Verdicts(q, k, q.ops[k].snapshot.status) && q.ops[k].phase.Broken?
  }

  predicate ReportLost(q: Queue.Queue<Job>, k: nat) {
    Reports(q, k) && q.ops[k].phase.Broken?
  }

  predicate Plain(job: Job) {
    !job.error && !job.persistenceError
  }

  predicate VerdictSaved(s: Sys) {
    ReturnsSettled(s.queue) && Shown(s)
  }

  predicate ReturnsSettled(q: Queue.Queue<Job>) {
    forall k :: 0 <= k < |q.ops| && q.ops[k].released ==> Queue.Settled(q.ops[k].phase)
  }

  // What the status shown says about the writes, at every stage of the executor.
  predicate Shown(s: Sys) {
    match s.executor
    case Submitting(op) => s.job.status == InProgress && Plain(s.job) && op < |s.queue.ops|
    case Committing(op, verdict) => s.job.status == InProgress && Plain(s.job) && Verdicts(s.queue, op, verdict)
    case CommittingFailure(op) =>
      s.job.status == InProgress && Plain(s.job) && Reports(s.queue, op) && EngineFailed(s)
    case Published(op, verdict, _) =>
      s.job.status == verdict && Plain(s.job) && Verdicts(s.queue, op, verdict) && s.queue.ops[op].phase.Landed?
    case FailurePublished(op) =>
      && s.job.status == FAILED_JOB && s.job.error && !s.job.persistenceError
      && Reports(s.queue, op) && s.queue.ops[op].phase.Landed? && EngineFailed(s)
    case FailureUnsaved =>
      && s.job.status == FAILED_JOB && s.job.error && s.job.persistenceError && EngineFailed(s)
      && exists k :: 0 <= k < |s.queue.ops| && ReportLost(s.queue, k)
    case Reloaded => true
    case _ => s.job.status == InProgress && Plain(s.job)
  }

  // Calls and answers of the file system: snapshots stay, and so do settled writes.
  predicate Extends(q: Queue.Queue<Job>, r: Queue.Queue<Job>) {
    && |q.ops| <= |r.ops|
    && (forall k :: 0 <= k < |q.ops| ==> r.ops[k].snapshot == q.ops[k].snapshot)
    && (forall k :: 0 <= k < |q.ops| && Queue.Settled(q.ops[k].phase) ==> r.ops[k].phase == q.ops[k].phase)
  }

  // Every stage stays as it is when the executor and what the job shows do not change.
  lemma StageSaved(s: Sys, t: Sys)
    requires Shown(s) && Extends(s.queue, t.queue) && t.executor == s.executor
    requires Pool.Rejects(s.pool) ==> Pool.Rejects(t.pool)
    requires t.job.status == s.job.status && t.job.error == s.job.error
    requires t.job.persistenceError == s.job.persistenceError
    ensures Shown(t)
  {
    hide Judged;
    hide Pool.Rejects;
    if k :| 0 <= k < |s.queue.ops| && VerdictLost(s.queue, k) {
      assert VerdictLost(t.queue, k);
    }
    if k :| 0 <= k < |s.queue.ops| && ReportLost(s.queue, k) {
      assert ReportLost(t.queue, k);
    }
  }

  // A rejected worker stays rejected.
  lemma RejectsKept(s: Sys, a: Action)
    requires !Background(a) && !a.Restart?
    ensures Pool.Rejects(s.pool) ==> Pool.Rejects(Next(s, a).pool)
  {
    if a.WorkerResumes? {
      WorkerRejects(s, a.w, a.enabled);
    } else if Resumed(a).Some? {
      ResumedPool(s, a);
    } else {
      ClientPool(s, a);
    }
    hide Next;
  }

  lemma BeginPool(s: Sys, i: nat, enabled: bool)
    requires InRange(s, i)
    ensures Begin(s, i, enabled).pool == s.pool
  {
  }

  lemma WorkerRejects(s: Sys, w: nat, enabled: bool)
    ensures Pool.Rejects(s.pool) ==> Pool.Rejects(StepWorker(s, w, enabled).pool)
  {
    hide Begin;
    if InRange(s, s.pool.next) {
      var t := StepWorker(s, w, enabled);
      BeginPool(s.(pool := Pool.Next(s.pool, Pool.Act(w, true))), s.pool.next, enabled);
    }
    if v :| 0 <= v < |s.pool.workers| && s.pool.workers[v].Rejected? {
      assert Pool.Next(s.pool, Pool.Act(w, true)).workers[v] == s.pool.workers[v];
      assert Pool.Next(s.pool, Pool.Act(w, false)).workers[v] == s.pool.workers[v];
    }
  }

  lemma ResumedPool(s: Sys, a: Action)
    requires Resumed(a).Some?
    ensures Next(s, a).pool == s.pool
  {
    hide Queue.Enqueue;
    hide Ticket;
    hide EndsOpen;
  }

  lemma ClientPool(s: Sys, a: Action)
    requires a.CancelJob? || a.CancelRun? || a.CancelReturns?
    ensures Next(s, a).pool == s.pool
  {
    hide SweepStop;
    hide SweepRuns;
    hide Queue.Enqueue;
  }

  lemma FrameExtends(s: Sys, t: Sys)
    requires Frame(s, t) && ReturnsSettled(s.queue)
    ensures Extends(s.queue, t.queue) && ReturnsSettled(t.queue)
  {
  }

  lemma OuterSaved(s: Sys, a: Action)
    requires VerdictSaved(s) && !Background(a) && !a.Restart?
    ensures VerdictSaved(Next(s, a))
  {
    OuterFrame(s, a);
    FrameExtends(s, Next(s, a));
    RejectsKept(s, a);
    StageSaved(s, Next(s, a));
    hide Next;
    hide Shown;
    hide ReturnsSettled;
    hide Extends;
    hide Pool.Rejects;
  }

  // The counting verdict is the verdict of the policy.
  lemma VerdictJudged(job: Job)
    ensures Judged(job.(status := Verdict(job)))
  {
    CountBounds(job.runs, SUCCEEDED);
    CountBounds(job.runs, CANCELLED);
    hide CountState;
  }

  lemma SettleSaved(s: Sys)
    requires VerdictSaved(s) && s.executor.Pooling?
    ensures VerdictSaved(SettlePool(s))
  {
    VerdictJudged(s.job);
    hide Verdict;
    hide Judged;
    hide Pool.Rejects;
    hide Pool.Resolves;
  }

  // A verdict that could not be saved makes the engine fail.
  lemma LostVerdict(s: Sys, op: nat, verdict: Status)
    requires s.executor == Committing(op, verdict) && VerdictSaved(s) && Back(s, op) && !Saved(s, op)
    ensures VerdictSaved(CommitFailure(s))
  {
    hide Judged;
    hide Pool.Rejects;
    var t := CommitFailure(s);
    assert VerdictLost(s.queue, op);
    assert VerdictLost(t.queue, op);
  }

  lemma FailureSettles(s: Sys, op: nat)
    requires s.executor == CommittingFailure(op) && VerdictSaved(s)
    ensures VerdictSaved(AfterCommit(s))
  {
    hide Judged;
    hide Pool.Rejects;
    hide VerdictLost;
    if Back(s, op) && !Saved(s, op) {
      assert ReportLost(s.queue, op);
    }
  }

  lemma CommitSaved(s: Sys)
    requires VerdictSaved(s)
    ensures VerdictSaved(AfterCommit(s))
  {
    hide Judged;
    hide Pool.Rejects;
    hide CommitFailure;
    match s.executor {
      case Committing(op, verdict) => if Back(s, op) && !Saved(s, op) { LostVerdict(s, op, verdict); }
      case CommittingFailure(op) => FailureSettles(s, op);
      case _ =>
    }
  }

  lemma ExecutorSaved(s: Sys, a: Action)
    requires VerdictSaved(s) && (a.SubmitResumes? || a.PoolSettles? || a.CommitReturns?)
    ensures VerdictSaved(Next(s, a))
  {
    match a {
      case SubmitResumes =>
      case PoolSettles => if s.executor.Pooling? { SettleSaved(s); }
      case CommitReturns => CommitSaved(s);
    }
    hide SettlePool;
    hide AfterCommit;
    hide Judged;
    hide VerdictLost;
  }

  lemma AdvanceExtends(q: Queue.Queue<Job>, k: nat, ok: bool)
    requires ReturnsSettled(q)
    ensures Extends(q, Queue.Advance(q, k, ok)) && ReturnsSettled(Queue.Advance(q, k, ok))
    ensures Extends(q, Queue.Release(q, k)) && ReturnsSettled(Queue.Release(q, k))
  {
    hide Queue.MayStart;
  }

  lemma DiskSaved(s: Sys, a: Action)
    requires VerdictSaved(s) && (a.DiskWrite? || a.WriteReturns? || a.Restart?)
    ensures VerdictSaved(Next(s, a))
  {
    if a.Restart? {
      hide Repair;
      hide NeedsRepair;
    } else {
      AdvanceExtends(s.queue, a.op, a.DiskWrite? && a.ok);
      StageSaved(s, Next(s, a));
    }
    hide Shown;
  }

  lemma {:induction false} ExecSaved(s: Sys, actions: seq<Action>)
    requires VerdictSaved(s)
    ensures VerdictSaved(Exec(s, actions))
    decreases |actions|
  {
    hide Next;
    hide VerdictSaved;
    if actions != [] {
      var a := actions[0];
      if a.DiskWrite? || a.WriteReturns? || a.Restart? {
        DiskSaved(s, a);
      } else if Background(a) {
        ExecutorSaved(s, a);
      } else {
        OuterSaved(s, a);
      }
      ExecSaved(Next(s, a), actions[1..]);
    }
  }

  // For every job and every limit: a verdict is shown only after a snapshot carrying it was
  // renamed onto disk, unless the job says that saving failed.  A crash may strike at any point.
  lemma VerdictsAreDurable(n: nat, limit: int, actions: seq<Action>)
    ensures var s := Exec(Init(n, limit), actions);
      !s.executor.Reloaded? && s.job.status != InProgress && !s.job.persistenceError ==>
      exists k :: 0 <= k < |s.queue.ops| && s.queue.ops[k].phase.Landed?
        && s.queue.ops[k].snapshot.status == s.job.status
  {
    ExecSaved(Init(n, limit), actions);
  }

  // For every job and every limit: the snapshot of a verdict says of its runs exactly what the
  // policy of the pool says it should.
  lemma VerdictFollowsPolicy(n: nat, limit: int, actions: seq<Action>)
    ensures var s := Exec(Init(n, limit), actions); var e := s.executor;
      e.Committing? || e.Published? ==>
      e.op < |s.queue.ops| && s.queue.ops[e.op].snapshot.status == e.verdict && Judged(s.queue.ops[e.op].snapshot)
  {
    hide Judged;
    ExecSaved(Init(n, limit), actions);
  }

  // A job carries an engine error only if a frame threw or its verdict could not be saved, and says
  // that saving failed exactly when the report of that error could not be saved either.
  lemma EngineErrorHasCause(n: nat, limit: int, actions: seq<Action>)
    ensures var s := Exec(Init(n, limit), actions);
      !s.executor.Reloaded? ==>
      && (s.job.error ==> s.job.status == FAILED_JOB && EngineFailed(s))
      && (s.job.persistenceError ==>
        s.job.error && exists k :: 0 <= k < |s.queue.ops| && ReportLost(s.queue, k))
      && (s.job.error && !s.job.persistenceError ==>
        exists k :: 0 <= k < |s.queue.ops| && Reports(s.queue, k) && s.queue.ops[k].phase.Landed?)
  {
    hide Judged;
    hide EngineFailed;
    ExecSaved(Init(n, limit), actions);
  }

  // While the process lives, a requested cancellation is never withdrawn.
  lemma {:induction false} CancelRequestSticks(s: Sys, actions: seq<Action>)
    requires s.job.cancelRequested && NoRestart(actions)
    ensures Exec(s, actions).job.cancelRequested
    decreases |actions|
  {
    hide Next;
    if actions != [] {
      if Background(actions[0]) {
        BackgroundKeeps(s, actions[0]);
      } else {
        OuterFrame(s, actions[0]);
      }
      assert NoRestart(actions[1..]);
      CancelRequestSticks(Next(s, actions[0]), actions[1..]);
    }
  }

  lemma CancelledVerdict(s: Sys)
    requires |s.job.runs| >= 1 && s.job.cancelRequested && forall i :: 0 <= i < |s.job.runs| ==>
      s.job.runs[i].state == CANCELLED
    ensures Verdict(s.job) == CANCELLED_JOB
  {
    CountBounds(s.job.runs, SUCCEEDED);
    CountBounds(s.job.runs, CANCELLED);
    assert s.job.runs[0].state == CANCELLED;
  }

  lemma ExecutorBarred(s: Sys, a: Action)
    requires AllBarred(s) && Background(a)
    requires a.PoolSettles? && s.executor.Pooling? && Pool.Resolves(s.pool) ==> Verdict(s.job) == CANCELLED_JOB
    ensures AllBarred(Next(s, a))
  {
    var t := Next(s, a);
    assert t.tasks == s.tasks && t.job.runs == s.job.runs && t.job.cancelRequested == s.job.cancelRequested;
    assert forall i :: 0 <= i < |s.tasks| ==> Barred(t, i) == Barred(s, i);
  }

  lemma AllBarredStep(s: Sys, a: Action)
    requires Inv(s) && AllBarred(s) && !a.Restart?
    ensures AllBarred(Next(s, a))
  {
    if Background(a) {
      if a.PoolSettles? && s.executor.Pooling? && Pool.Resolves(s.pool) {
        ResolvedPoolIsDone(s);
        assert forall i :: 0 <= i < |s.job.runs| ==> Barred(s, i) && s.tasks[i].pc.Done?;
        assert Barred(s, 0);
        CancelledVerdict(s);
      }
      hide Inv;
      ExecutorBarred(s, a);
    } else {
      hide Inv;
      NextInv(s, a);
      LengthsAgree(Next(s, a));
      OuterFrame(s, a);
      hide Next;
      hide Barred;
      forall i | 0 <= i < |s.tasks|
        ensures Barred(Next(s, a), i)
      {
        BarredStep(s, a, i);
      }
    }
  }

  lemma {:induction false} AllBarredForever(s: Sys, actions: seq<Action>)
    requires Inv(s) && AllBarred(s) && NoRestart(actions)
    ensures AllBarred(Exec(s, actions))
    decreases |actions|
  {
    if actions != [] {
      NextInv(s, actions[0]);
      AllBarredStep(s, actions[0]);
      assert NoRestart(actions[1..]);
      AllBarredForever(Next(s, actions[0]), actions[1..]);
    }
  }

  // Cancelled before any run was claimed: no adapter is ever contacted, and unless writing the
  // snapshots fails the job is reported CANCELLED.
  lemma CancelledJobVerdict(n: nat, limit: int, before: seq<Action>, after: seq<Action>)
    requires n >= 1 && limit >= 1 && NoRestart(after)
    requires var s := Exec(Init(n, limit), before);
      (s.executor.Submitting? || s.executor.Pooling?) && forall i :: 0 <= i < |s.tasks| ==> s.tasks[i].pc.Unclaimed?
    ensures var t := Exec(Next(Exec(Init(n, limit), before), CancelJob), after);
      && (forall i :: 0 <= i < |t.tasks| ==> t.tasks[i].session.None? && t.tasks[i].healthChecks == 0)
      && (t.job.status != InProgress && !t.job.error ==> t.job.status == CANCELLED_JOB)
  {
    Reachable(n, limit, before);
    var s := Exec(Init(n, limit), before);
    AllBarredByCancel(s);
    hide AllBarred;
    NextInv(s, CancelJob);
    hide Inv;
    AllBarredForever(Next(s, CancelJob), after);
    AllBarredMeans(Exec(Next(s, CancelJob), after));
  }

  lemma AllBarredByCancel(s: Sys)
    requires Inv(s) && (s.executor.Submitting? || s.executor.Pooling?)
    requires forall i :: 0 <= i < |s.tasks| ==> s.tasks[i].pc.Unclaimed?
    ensures AllBarred(Next(s, CancelJob))
  {
    assert s.job.status == InProgress;
    NextInv(s, CancelJob);
    LengthsAgree(Next(s, CancelJob));
    OuterFrame(s, CancelJob);
    var t := Next(s, CancelJob);
    forall i | 0 <= i < |s.tasks|
      ensures Barred(t, i)
    {
      BarredByCancel(s, i);
    }
    hide Inv;
    hide Barred;
    hide Next;
  }

  lemma AllBarredMeans(t: Sys)
    requires AllBarred(t)
    ensures forall i :: 0 <= i < |t.tasks| ==> t.tasks[i].session.None? && t.tasks[i].healthChecks == 0
    ensures t.job.status != InProgress && !t.job.error ==> t.job.status == CANCELLED_JOB
  {
    forall i | 0 <= i < |t.tasks|
      ensures t.tasks[i].session.None? && t.tasks[i].healthChecks == 0
    {
      assert Barred(t, i);
    }
  }

  // ----- The persist chain of a live job -----

  lemma BackgroundQueue(s: Sys, a: Action)
    requires a.SubmitResumes? || a.PoolSettles? || a.CommitReturns?
    ensures OneCall(s.queue, Next(s, a).queue)
  {
  }

  lemma FrameQueue(s: Sys, t: Sys)
    requires Frame(s, t)
    ensures OneCall(s.queue, t.queue)
  {
  }

  lemma CallKeepsCurrent(q: Queue.Queue<Job>, r: Queue.Queue<Job>)
    requires Queue.Linked(q) && Queue.Current(q) && OneCall(q, r)
    ensures Queue.Current(r)
  {
    if r != q {
      Queue.NextCurrent(q, Queue.Call(r.ops[|r.ops| - 1].snapshot));
    }
  }

  lemma RestartCurrent(s: Sys)
    requires Queue.Current(s.queue)
    ensures Queue.Current(AfterRestart(s).queue)
  {
    if s.queue.disk.Some? {
      var idle := Queue.Empty(s.queue.disk);
      assert Queue.Current(idle);
      Queue.NextCurrent(idle, Queue.Call(Repair(s.queue.disk.value)));
    }
  }

  lemma CurrentStep(s: Sys, a: Action)
    requires Inv(s) && Queue.Current(s.queue)
    ensures Queue.Current(Next(s, a).queue)
  {
    assert Queue.Linked(s.queue);
    hide Inv;
    hide Queue.Linked;
    hide Queue.Current;
    hide OneCall;
    if a.Restart? {
      RestartCurrent(s);
    } else if a.DiskWrite? {
      Queue.NextCurrent(s.queue, Queue.Write(a.op, a.ok));
    } else if a.WriteReturns? {
      Queue.NextCurrent(s.queue, Queue.Return(a.op));
    } else {
      if Background(a) { BackgroundQueue(s, a); } else { OuterFrame(s, a); FrameQueue(s, Next(s, a)); }
      hide Next;
      CallKeepsCurrent(s.queue, Next(s, a).queue);
    }
  }

  // At every moment of every schedule the file on disk is the newest snapshot whose write
  // succeeded, in the order the snapshots were taken.
  lemma {:induction false} DiskIsNewest(s: Sys, actions: seq<Action>)
    requires Inv(s) && Queue.Current(s.queue)
    ensures Queue.Current(Exec(s, actions).queue)
    decreases |actions|
  {
    if actions != [] {
      NextInv(s, actions[0]);
      CurrentStep(s, actions[0]);
      DiskIsNewest(Next(s, actions[0]), actions[1..]);
    }
  }
}
