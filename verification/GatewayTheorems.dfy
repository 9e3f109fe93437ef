// What the gateway promises about a whole job, over every schedule.
module GatewayTheorems {
  import opened Wrappers
  import opened GatewayModel
  import opened GatewayInvariant
  import Queue = PersistQueue
  import Pool = WorkerPool

  // ----- Terminal at verdict -----

  // The pool resolved, now or at some time before; a new process has no pool.
  predicate Resolved(s: Sys) {
    || (s.executor.Pooling? && Pool.Resolves(s.pool))
    || s.executor.Committing? || s.executor.Published? || s.executor.Reloaded?
  }

  predicate AllTerminal(s: Sys) {
    s.active == {} && forall i :: 0 <= i < |s.job.runs| ==> Terminal(s.job.runs[i].state)
  }

  // The pool resolved: every run is terminal, whatever the adapters and the clients did.
  lemma ResolvedMeansTerminal(n: nat, limit: int, actions: seq<Action>)
    requires n >= 1 && limit >= 1 && Resolved(Exec(Init(n, limit), actions))
    ensures AllTerminal(Exec(Init(n, limit), actions))
  {
    Reachable(n, limit, actions);
    ResolvedIsDone(Exec(Init(n, limit), actions));
    DoneIsFinal(Exec(Init(n, limit), actions));
  }

  lemma ResolvedIsDone(s: Sys)
    requires Inv(s) && Resolved(s)
    ensures AllDone(s)
  {
    if s.executor.Pooling? {
      ResolvedPoolIsDone(s);
    }
  }

  lemma DoneIsFinal(s: Sys)
    requires Inv(s) && AllDone(s)
    ensures AllTerminal(s) && |s.tasks| == |s.job.runs|
  {
    assert forall i :: 0 <= i < |s.tasks| ==> TaskOk(s.job.runs[i], s.tasks[i], i in s.active);
  }

  // ----- No invented success -----

  predicate EndedInSuccess(r: Run) {
    LastTerminal(r.events) == Some(SUCCEEDED)
  }

  // In memory and on disk, before and after any restart: a SUCCEEDED run has run.succeeded as its
  // last terminal event, and the job status says of these events what it appears to say.
  lemma NoInventedSuccess(n: nat, limit: int, actions: seq<Action>, j: Job)
    requires n >= 1 && limit >= 1
    requires var s := Exec(Init(n, limit), actions); j == s.job || s.queue.disk == Some(j)
    ensures forall i :: 0 <= i < |j.runs| && j.runs[i].state == SUCCEEDED ==> EndedInSuccess(j.runs[i])
    ensures j.status == COMPLETED ==> forall i :: 0 <= i < |j.runs| ==> EndedInSuccess(j.runs[i])
    ensures j.status == PARTIAL ==>
      exists i, k :: 0 <= i < |j.runs| && 0 <= k < |j.runs| && EndedInSuccess(j.runs[i]) && j.runs[k].state != SUCCEEDED
    ensures j.status == CANCELLED_JOB || (j.status == FAILED_JOB && !j.error && !j.recovered) ==>
      forall i :: 0 <= i < |j.runs| ==> j.runs[i].state != SUCCEEDED
  {
    hide Inv;
    hide Exec;
    Reachable(n, limit, actions);
    ShownHonest(Exec(Init(n, limit), actions));
    HonestSuccess(j);
  }

  lemma ShownHonest(s: Sys)
    requires Inv(s)
    ensures JobHonest(s.job) && (s.queue.disk.Some? ==> JobHonest(s.queue.disk.value))
  {
    hide JobHonest;
    hide PoolOk;
    hide RunsOk;
    hide ExecutorOk;
    hide Queue.Linked;
  }

  lemma HonestSuccess(j: Job)
    requires JobHonest(j)
    ensures forall i :: 0 <= i < |j.runs| && j.runs[i].state == SUCCEEDED ==> EndedInSuccess(j.runs[i])
    ensures j.status == COMPLETED ==> forall i :: 0 <= i < |j.runs| ==> EndedInSuccess(j.runs[i])
    ensures j.status == PARTIAL ==>
      exists i, k :: 0 <= i < |j.runs| && 0 <= k < |j.runs| && EndedInSuccess(j.runs[i]) && j.runs[k].state != SUCCEEDED
    ensures j.status == CANCELLED_JOB || (j.status == FAILED_JOB && !j.error && !j.recovered) ==>
      forall i :: 0 <= i < |j.runs| ==> j.runs[i].state != SUCCEEDED
  {
    if j.status == PARTIAL {
      var i :| 0 <= i < |j.runs| && j.runs[i].state == SUCCEEDED;
      var k :| 0 <= k < |j.runs| && j.runs[k].state != SUCCEEDED;
      assert EndedInSuccess(j.runs[i]);
    }
  }

  predicate NoRestart(actions: seq<Action>) {
    forall k :: 0 <= k < |actions| ==> !actions[k].Restart?
  }

  // The adapter of run `i` yields nothing once it has yielded a terminal event.
  ghost predicate Obedient(s: Sys, actions: seq<Action>, i: nat)
    decreases |actions|
  {
    actions == [] || (
      && !(i < |s.job.runs| && LastTerminal(s.job.runs[i].events).Some? && actions[0].StreamReturns?
        && actions[0].i == i && actions[0].step.Yields?)
      && Obedient(Next(s, actions[0]), actions[1..], i))
  }

  // The run whose frame a step resumes.
  function Resumed(a: Action): Option<nat> {
    match a
    case HealthReturns(i, _) => Some(i)
    case PersistReturns(i) => Some(i)
    case SessionReturns(i, _) => Some(i)
    case StreamReturns(i, _) => Some(i)
    case IteratorReturns(i) => Some(i)
    case ArtifactReturns(i, _) => Some(i)
    case CloseReturns(i) => Some(i)
    case _ => None
  }

  // The state kept, or turned into FAILED; the stream kept.
  predicate Sticks(r: Run, t: Sys, i: nat) {
    i < |t.job.runs| && t.job.runs[i].events == r.events
      && (t.job.runs[i].state == r.state || t.job.runs[i].state == FAILED)
  }

  lemma PersistSticks(s: Sys, k: nat, i: nat)
    requires InRange(s, i) && InRange(s, k) && Terminal(s.job.runs[i].state)
    ensures Sticks(s.job.runs[i], AfterPersist(s, k), i)
  {
  }

  lemma ArtifactSticks(s: Sys, k: nat, artifact: ArtifactStep, i: nat)
    requires InRange(s, i) && InRange(s, k) && Terminal(s.job.runs[i].state)
    ensures Sticks(s.job.runs[i], AfterArtifact(s, k, artifact), i)
  {
    hide Ticket;
    hide EndsOpen;
    hide Queue.Enqueue;
  }

  lemma HealthSticks(s: Sys, k: nat, health: Health, i: nat)
    requires InRange(s, i) && InRange(s, k) && k != i
    ensures Sticks(s.job.runs[i], AfterHealth(s, k, health), i)
  {
  }

  lemma SessionSticks(s: Sys, k: nat, ok: bool, i: nat)
    requires InRange(s, i) && InRange(s, k) && k != i
    ensures Sticks(s.job.runs[i], AfterSession(s, k, ok), i)
  {
  }

  lemma StreamSticks(s: Sys, k: nat, step: StreamStep, i: nat)
    requires InRange(s, i) && InRange(s, k) && (k != i || !step.Yields?)
    ensures Sticks(s.job.runs[i], AfterStream(s, k, step), i)
  {
  }

  lemma ResumeSticks(s: Sys, c: nat, k: nat, threw: bool, i: nat)
    requires c < |s.cancels| && k < |s.job.runs| && i < |s.job.runs| && Terminal(s.job.runs[i].state)
    ensures Sticks(s.job.runs[i], ResumeSweep(s, c, k, threw), i)
  {
    var t := NoteError(s, k, threw);
    assert Sticks(s.job.runs[i], t, i) && Terminal(t.job.runs[i].state);
    SweepSkips(t, k + 1, i);
    hide NoteError;
    hide Sweep;
  }

  lemma CancelSticks(s: Sys, c: nat, threw: bool, i: nat)
    requires i < |s.job.runs| && Terminal(s.job.runs[i].state)
    ensures Sticks(s.job.runs[i], AfterCancel(s, c, threw), i)
  {
    if c < |s.cancels| && s.cancels[c].JobAwaitAdapter? && s.cancels[c].run < |s.job.runs| {
      ResumeSticks(s, c, s.cancels[c].run, threw, i);
    }
    hide ResumeSweep;
    hide Queue.Enqueue;
  }

  lemma WorkerSticks(s: Sys, w: nat, enabled: bool, i: nat)
    requires Inv(s) && InRange(s, i) && !s.tasks[i].pc.Unclaimed?
    ensures Sticks(s.job.runs[i], StepWorker(s, w, enabled), i)
  {
    WorkerTouches(s, w, enabled, i);
    hide Inv;
    hide StepWorker;
  }

  lemma SameRunsStick(s: Sys, t: Sys, i: nat)
    requires i < |s.job.runs| && t.job.runs == s.job.runs
    ensures Sticks(s.job.runs[i], t, i)
  {
  }

  lemma CatchSticks(s: Sys, k: nat, code: ErrorCode, i: nat)
    requires InRange(s, i) && InRange(s, k)
    ensures Sticks(s.job.runs[i], Catch(s, k, code), i)
  {
  }

  lemma SweepSticks(s: Sys, i: nat)
    requires i < |s.job.runs| && Terminal(s.job.runs[i].state)
    ensures Sticks(s.job.runs[i], StartCancelJob(s), i)
  {
    SweepSkips(s.(job := s.job.(cancelRequested := true)), 0, i);
  }

  lemma CancelRunSticks(s: Sys, k: nat, i: nat)
    requires i < |s.job.runs|
    ensures Sticks(s.job.runs[i], StartCancelRun(s, k), i)
  {
  }

  lemma CommitKeepsRuns(s: Sys)
    ensures AfterCommit(s).job.runs == s.job.runs
  {
  }

  lemma SettleKeepsRuns(s: Sys)
    ensures SettlePool(s).job.runs == s.job.runs
  {
  }

  // What a step may do to a run whose stream has shown a terminal event.
  lemma TerminalEventStep(s: Sys, a: Action, i: nat)
    requires Inv(s) && !a.Restart? && i < |s.job.runs|
    requires s.job.runs[i].events != [] && Terminal(s.job.runs[i].state)
    requires !(a.StreamReturns? && a.i == i && a.step.Yields?)
    ensures Sticks(s.job.runs[i], Next(s, a), i)
  {
    LengthsAgree(s);
    if Resumed(a).Some? {
      ResumedStep(s, a, i);
    } else {
      TaskAt(s, i);
      SameRunsStick(s, s, i);
      hide Sticks;
      match a {
        case SubmitResumes => SameRunsStick(s, AfterSubmit(s), i);
        case WorkerResumes(w, enabled) => WorkerSticks(s, w, enabled, i);
        case PoolSettles => if s.executor.Pooling? { SettleKeepsRuns(s); SameRunsStick(s, SettlePool(s), i); }
        case CommitReturns => CommitKeepsRuns(s); SameRunsStick(s, AfterCommit(s), i);
        case CancelJob => SweepSticks(s, i);
        case CancelRun(k) => CancelRunSticks(s, k, i);
        case CancelReturns(c, threw) => CancelSticks(s, c, threw, i);
        case DiskWrite(op, ok) => SameRunsStick(s, Next(s, a), i);
        case WriteReturns(op) => SameRunsStick(s, Next(s, a), i);
      }
    }
  }

  lemma ResumedStep(s: Sys, a: Action, i: nat)
    requires Inv(s) && Resumed(a).Some? && i < |s.job.runs| && |s.tasks| == |s.job.runs|
    requires s.job.runs[i].events != [] && Terminal(s.job.runs[i].state)
    requires !(a.StreamReturns? && a.i == i && a.step.Yields?)
    ensures Sticks(s.job.runs[i], Next(s, a), i)
  {
    hide Inv;
    hide AfterHealth;
    hide AfterPersist;
    hide AfterSession;
    hide AfterStream;
    hide AfterArtifact;
    hide Catch;
    TaskAt(s, i);
    assert !s.tasks[i].pc.AwaitHealth? && !s.tasks[i].pc.AwaitCreateSession?;
    SameRunsStick(s, s, i);
    hide Sticks;
    hide TaskOk;
    match a {
      case HealthReturns(k, health) => if Awaits(s, k, AwaitHealth) { HealthSticks(s, k, health, i); }
      case PersistReturns(k) => if InRange(s, k) { PersistSticks(s, k, i); }
      case SessionReturns(k, ok) => if Awaits(s, k, AwaitCreateSession) { SessionSticks(s, k, ok, i); }
      case StreamReturns(k, step) => if Awaits(s, k, AwaitNext) { StreamSticks(s, k, step, i); }
      case IteratorReturns(k) => if Awaits(s, k, AwaitReturn) { CatchSticks(s, k, FromDisk, i); }
      case ArtifactReturns(k, artifact) => if Awaits(s, k, AwaitArtifacts) { ArtifactSticks(s, k, artifact, i); }
      case CloseReturns(k) =>
        if InRange(s, k) && s.tasks[k].pc.AwaitClose? {
          SameRunsStick(s, FinalPersist(s, k, s.tasks[k].pc.rethrow), i);
        }
    }
  }

  lemma SweepSkips(s: Sys, from: nat, i: nat)
    requires i < |s.job.runs| && Terminal(s.job.runs[i].state)
    ensures |Sweep(s, from).0.job.runs| == |s.job.runs| && Sweep(s, from).0.job.runs[i] == s.job.runs[i]
  {
  }

  // A worker's step moves the pool, and begins the next unclaimed run if there is one to claim.
  predicate Claims(s: Sys, t: Sys, enabled: bool) {
    || t == s.(pool := t.pool)
    || (InRange(s, s.pool.next) && s.tasks[s.pool.next].pc.Unclaimed?
        && t == Begin(s.(pool := t.pool), s.pool.next, enabled))
  }

  lemma WorkerClaims(s: Sys, w: nat, enabled: bool)
    requires Inv(s)
    ensures Claims(s, StepWorker(s, w, enabled), enabled)
  {
    if w < |s.pool.workers| {
      PoolFacts(s, w);
    }
    hide Inv;
    hide PoolMoved;
    hide Begin;
    hide Pool.Next;
  }

  // A worker only touches a run it has just claimed, which no frame has begun.
  lemma WorkerTouches(s: Sys, w: nat, enabled: bool, i: nat)
    requires Inv(s) && InRange(s, i) && !s.tasks[i].pc.Unclaimed?
    ensures var t := StepWorker(s, w, enabled);
      InRange(t, i) && t.job.runs[i] == s.job.runs[i] && t.tasks[i] == s.tasks[i]
  {
    WorkerClaims(s, w, enabled);
    var t := StepWorker(s, w, enabled);
    hide Inv;
    hide StepWorker;
    if t != s.(pool := t.pool) {
      BeginTouches(s.(pool := t.pool), s.pool.next, enabled);
    }
    hide Begin;
  }

  lemma BeginTouches(s: Sys, k: nat, enabled: bool)
    requires InRange(s, k)
    ensures var t := Begin(s, k, enabled);
      && |t.tasks| == |s.tasks| && |t.job.runs| == |s.job.runs|
      && forall i :: 0 <= i < |s.tasks| && i < |s.job.runs| && i != k ==>
        t.job.runs[i] == s.job.runs[i] && t.tasks[i] == s.tasks[i]
  {
  }

  // With an adapter that stops at its terminal event, the state that event gave a run is kept, or
  // turned into FAILED, for as long as the process lives.
  lemma {:induction false} TerminalEventSticks(s: Sys, actions: seq<Action>, i: nat)
    requires Inv(s) && NoRestart(actions) && i < |s.job.runs| && Obedient(s, actions, i)
    requires LastTerminal(s.job.runs[i].events).Some? && Terminal(s.job.runs[i].state)
    ensures i < |Exec(s, actions).job.runs|
    ensures Exec(s, actions).job.runs[i].state == s.job.runs[i].state || Exec(s, actions).job.runs[i].state == FAILED
    decreases |actions|
  {
    if actions != [] {
      assert s.job.runs[i].events != [];
      NextInv(s, actions[0]);
      TerminalEventStep(s, actions[0], i);
      assert NoRestart(actions[1..]);
      TerminalEventSticks(Next(s, actions[0]), actions[1..], i);
    }
  }
}
