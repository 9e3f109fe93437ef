// What outlives every later schedule with any number of crashes and restarts, exactly.
module GatewayRestarts {
  import opened Wrappers
  import opened GatewayModel
  import opened GatewayInvariant
  import opened GatewayTheorems
  import opened GatewaySessions
  import opened GatewayEdges
  import opened GatewayFinality
  import opened GatewayWrites
  import opened GatewayAbsorption
  import Queue = PersistQueue
  import Recovery

  // ----- What the records that can still be loaded say -----

  // The file, and every snapshot that may yet become the file, is `good` once it was repaired.
  ghost predicate Lasting(q: Queue.Queue<Job>, good: Job -> bool) {
    && (q.disk.Some? ==> good(Repair(q.disk.value)))
    && (forall k :: 0 <= k < |q.ops| && !Queue.Settled(q.ops[k].phase) ==> good(Repair(q.ops[k].snapshot)))
  }

  lemma LastingEnqueued(q: Queue.Queue<Job>, snapshot: Job, good: Job -> bool)
    requires Lasting(q, good) && good(Repair(snapshot))
    ensures Lasting(Queue.Enqueue(q, snapshot), good)
  {
    hide Repair;
  }

  lemma LastingMoves(q: Queue.Queue<Job>, k: nat, ok: bool, good: Job -> bool)
    requires Lasting(q, good)
    ensures Lasting(Queue.Advance(q, k, ok), good) && Lasting(Queue.Release(q, k), good)
  {
    hide Repair;
    hide Queue.MayStart;
  }

  // A new process shows what was on disk, and may write the same again.
  lemma LastingReloads(s: Sys, good: Job -> bool)
    requires Lasting(s.queue, good)
    ensures Lasting(AfterRestart(s).queue, good)
    ensures s.queue.disk.Some? ==> good(AfterRestart(s).job)
  {
    if s.queue.disk.Some? {
      Recovery.RepairOnce(s.queue.disk.value);
      hide Repair;
      hide NeedsRepair;
    }
  }

  // A record that says otherwise can be loaded.
  lemma CanLose(s: Sys, good: Job -> bool) returns (actions: seq<Action>)
    requires Queue.Linked(s.queue) && !Lasting(s.queue, good)
    ensures !good(Exec(s, actions).job)
  {
    if s.queue.disk.Some? && !good(Repair(s.queue.disk.value)) {
      actions := [Restart];
      One(s, Restart);
      hide Exec;
    } else {
      var k :| 0 <= k < |s.queue.ops| && !Queue.Settled(s.queue.ops[k].phase) && !good(Repair(s.queue.ops[k].snapshot));
      actions := CanReload(s, k);
    }
    hide Queue.Linked;
    hide Repair;
  }

  // ----- The verdict of a job -----

  function ShowsStatus(status: Status): Job -> bool {
    (job: Job) => job.status == status
  }

  ghost predicate VerdictKept(s: Sys, verdict: Status) {
    s.job.status == verdict && verdict != InProgress && Lasting(s.queue, ShowsStatus(verdict))
  }

  // A record with a verdict other than FAILED has no active run.
  lemma VerdictRepaired(s: Sys)
    requires Inv(s) && s.job.status != InProgress
    ensures Repair(s.job).status == s.job.status
  {
    if s.job.status != FAILED_JOB {
      DoneIsFinal(s);
      hide Inv;
      assert forall i :: 0 <= i < |s.job.runs| ==> !Active(s.job.runs[i].state);
    }
  }

  // A shown verdict belongs to a job whose executor has nothing left to do.
  lemma ExecutorIdle(s: Sys, a: Action)
    requires Inv(s) && s.job.status != InProgress && (a.SubmitResumes? || a.PoolSettles? || a.CommitReturns?)
    ensures Next(s, a) == s
  {
  }

  lemma VerdictStep(s: Sys, a: Action, verdict: Status)
    requires Inv(s) && VerdictKept(s, verdict)
    ensures VerdictKept(Next(s, a), verdict)
  {
    var t, good := Next(s, a), ShowsStatus(verdict);
    if a.Restart? {
      LastingReloads(s, good);
    } else if a.DiskWrite? {
      LastingMoves(s.queue, a.op, a.ok, good);
    } else if a.WriteReturns? {
      LastingMoves(s.queue, a.op, true, good);
    } else if Background(a) {
      ExecutorIdle(s, a);
    } else {
      OuterFrame(s, a);
      NextInv(s, a);
      VerdictRepaired(t);
      hide Next;
      if t.queue != s.queue {
        LastingEnqueued(s.queue, t.job, good);
      }
    }
    hide Inv;
    hide Lasting;
    hide Repair;
    hide NeedsRepair;
  }

  lemma {:induction false} VerdictForever(s: Sys, actions: seq<Action>, verdict: Status)
    requires Inv(s) && VerdictKept(s, verdict)
    ensures VerdictKept(Exec(s, actions), verdict)
    decreases |actions|
  {
    hide Inv;
    hide VerdictKept;
    hide Next;
    if actions != [] {
      NextInv(s, actions[0]);
      VerdictStep(s, actions[0], verdict);
      VerdictForever(Next(s, actions[0]), actions[1..], verdict);
    }
  }

  // For every job: the verdict shown at some moment is shown after every later schedule, cancels,
  // failed writes, crashes and restarts included, if and only if the file and every snapshot that
  // has not settled would be loaded with that verdict.
  lemma VerdictLasts(n: nat, limit: int, before: seq<Action>)
    requires n >= 1 && limit >= 1 && Exec(Init(n, limit), before).job.status != InProgress
    ensures var s := Exec(Init(n, limit), before);
      (forall after :: Exec(s, after).job.status == s.job.status) <==> Lasting(s.queue, ShowsStatus(s.job.status))
  {
    Reachable(n, limit, before);
    VerdictLastsFrom(Exec(Init(n, limit), before));
  }

  lemma VerdictLastsFrom(s: Sys)
    requires Inv(s) && s.job.status != InProgress
    ensures (forall after :: Exec(s, after).job.status == s.job.status) <==> Lasting(s.queue, ShowsStatus(s.job.status))
  {
    assert Queue.Linked(s.queue);
    if Lasting(s.queue, ShowsStatus(s.job.status)) {
      forall after
        ensures Exec(s, after).job.status == s.job.status
      {
        VerdictForever(s, after, s.job.status);
      }
    } else {
      var after := CanLose(s, ShowsStatus(s.job.status));
      assert Exec(s, after).job.status != s.job.status;
    }
    hide Inv;
    hide Lasting;
    hide Queue.Linked;
  }

  // Of a published verdict, in terms of the window between commit and assignment: the file shows
  // it, and no write enqueued in the window can still land.
  ghost predicate WindowClosed(s: Sys)
    requires s.executor.Published?
  {
    && s.queue.disk.Some? && s.queue.disk.value.status == s.executor.verdict
    && forall k :: s.executor.op < k < s.executor.at && k < |s.queue.ops| ==> Queue.Settled(s.queue.ops[k].phase)
  }

  lemma SnapshotReloads(s: Sys, k: nat)
    requires Inv(s) && s.executor.Published? && s.executor.op <= k < |s.queue.ops|
    ensures Repair(s.queue.ops[k].snapshot).status ==
      if s.executor.op < k < s.executor.at then FAILED_JOB else s.executor.verdict
  {
    WindowStatus(s, k);
    FrozenNeedsRepair(s, k);
    hide Inv;
    hide NeedsRepair;
  }

  // The commit write has landed, so every earlier write is settled and the file is one written since.
  lemma SinceCommit(s: Sys) returns (newest: nat)
    requires Inv(s) && Queue.Current(s.queue) && s.executor.Published?
    ensures s.executor.op <= newest < |s.queue.ops| && s.queue.disk == Some(s.queue.ops[newest].snapshot)
    ensures forall k :: 0 <= k < |s.queue.ops| && !Queue.Settled(s.queue.ops[k].phase) ==> s.executor.op < k
    ensures s.executor.at <= |s.queue.ops|
    ensures s.executor.at == s.executor.op + 1 ==> s.queue.disk.value.status == s.executor.verdict
  {
    PublishedAt(s);
    newest := Queue.NewestWitness(s.queue.ops, s.queue.disk);
    CommitCovers(s);
    hide Inv;
    hide Queue.Linked;
    hide Queue.Current;
    hide CommitOk;
    hide SameCores;
  }

  lemma EarlierSettled(q: Queue.Queue<Job>, op: nat)
    requires Queue.Linked(q) && op < |q.ops| && q.ops[op].phase.Landed?
    ensures forall k :: 0 <= k <= op ==> Queue.Settled(q.ops[k].phase)
  {
  }

  lemma CommitCovers(s: Sys)
    requires Inv(s) && s.executor.Published?
    ensures s.executor.op < |s.queue.ops| && s.queue.ops[s.executor.op].phase.Landed?
    ensures forall k :: 0 <= k <= s.executor.op ==> Queue.Settled(s.queue.ops[k].phase)
  {
    assert Queue.Linked(s.queue);
    hide Inv;
    hide Queue.Linked;
    hide CommitOk;
    hide DiskSince;
    PublishedAt(s);
    EarlierSettled(s.queue, s.executor.op);
  }

  lemma PublishedLasting(s: Sys)
    requires Inv(s) && Queue.Current(s.queue) && s.executor.Published?
    ensures Lasting(s.queue, ShowsStatus(s.executor.verdict)) <==> s.executor.verdict == FAILED_JOB || WindowClosed(s)
    ensures s.executor.at == s.executor.op + 1 ==> WindowClosed(s)
  {
    var newest := SinceCommit(s);
    hide Queue.Current;
    forall k | s.executor.op <= k < |s.queue.ops|
      ensures Repair(s.queue.ops[k].snapshot).status ==
        if s.executor.op < k < s.executor.at then FAILED_JOB else s.executor.verdict
      ensures s.queue.ops[k].snapshot.status ==
        if s.executor.op < k < s.executor.at then InProgress else s.executor.verdict
      ensures s.executor.verdict != InProgress
    {
      SnapshotReloads(s, k);
      WindowStatus(s, k);
    }
    hide Inv;
    hide Repair;
  }

  // A published verdict other than FAILED survives every later schedule if and only if the file
  // shows it and every write enqueued between the commit and the assignment has settled; FAILED
  // always does.  With no such write, every verdict does.
  lemma VerdictSurvivesRestarts(n: nat, limit: int, before: seq<Action>)
    requires n >= 1 && limit >= 1 && Exec(Init(n, limit), before).executor.Published?
    ensures var s := Exec(Init(n, limit), before); var e := s.executor;
      && ((forall after :: Exec(s, after).job.status == e.verdict) <==> e.verdict == FAILED_JOB || WindowClosed(s))
      && (e.at == e.op + 1 ==> WindowClosed(s))
  {
    Reachable(n, limit, before);
    InitInv(n, limit);
    InitCurrent(n, limit);
    DiskIsNewest(Init(n, limit), before);
    var s := Exec(Init(n, limit), before);
    PublishedLasting(s);
    assert s.job.status == s.executor.verdict != InProgress;
    VerdictLastsFrom(s);
    hide Inv;
    hide Queue.Current;
    hide WindowClosed;
    hide Lasting;
  }

  // ----- The terminal state of a run -----

  function ShowsRun(i: nat, state: RunState): Job -> bool {
    (job: Job) => i < |job.runs| && job.runs[i].state == state
  }

  // The frame cannot leave the state and no record that can be loaded shows another.
  ghost predicate StateKept(s: Sys, i: nat, state: RunState) {
    Absorbed(s, i, state) && Lasting(s.queue, ShowsRun(i, state))
  }

  lemma RunRepaired(job: Job, i: nat, state: RunState)
    requires i < |job.runs| && job.runs[i].state == state && Terminal(state)
    ensures ShowsRun(i, state)(Repair(job))
  {
  }

  lemma StateReloads(s: Sys, i: nat, state: RunState)
    requires StateKept(s, i, state)
    ensures StateKept(AfterRestart(s), i, state)
  {
    LastingReloads(s, ShowsRun(i, state));
    hide Lasting;
    hide Repair;
    hide NeedsRepair;
  }

  // A step that is not about the disk enqueues at most one snapshot, which shows the run.
  lemma StateEnqueued(s: Sys, t: Sys, i: nat, state: RunState)
    requires StateKept(s, i, state) && Absorbed(t, i, state) && Enqueues(s, t)
    ensures StateKept(t, i, state)
  {
    if t.queue != s.queue {
      var snapshot := t.queue.ops[|t.queue.ops| - 1].snapshot;
      RunRepaired(snapshot, i, state);
      LastingEnqueued(s.queue, snapshot, ShowsRun(i, state));
    }
    hide Absorbing;
    hide Lasting;
    hide Repair;
    hide ShowsRun;
  }

  lemma StateStep(s: Sys, a: Action, i: nat, state: RunState)
    requires Known(s) && StateKept(s, i, state)
    ensures StateKept(Next(s, a), i, state)
  {
    if a.Restart? {
      StateReloads(s, i, state);
    } else {
      AbsorbedStep(s, a, i);
      if a.DiskWrite? {
        LastingMoves(s.queue, a.op, a.ok, ShowsRun(i, state));
      } else if a.WriteReturns? {
        LastingMoves(s.queue, a.op, true, ShowsRun(i, state));
      } else {
        StepEnqueues(s, a);
        StateEnqueued(s, Next(s, a), i, state);
        hide Next;
      }
    }
    hide Known;
    hide Absorbing;
    hide Lasting;
    hide ShowsRun;
    hide AfterRestart;
  }

  lemma {:induction false} StateForever(s: Sys, actions: seq<Action>, i: nat, state: RunState)
    requires Known(s) && StateKept(s, i, state)
    ensures StateKept(Exec(s, actions), i, state)
    decreases |actions|
  {
    hide Known;
    hide StateKept;
    hide Next;
    if actions != [] {
      NextKnown(s, actions[0]);
      StateStep(s, actions[0], i, state);
      StateForever(Next(s, actions[0]), actions[1..], i, state);
    }
  }

  // For every reachable moment and every run in a terminal state: it is in that state after every
  // later schedule, crashes and restarts included, if and only if its frame stands where Absorbing
  // says and the file and every snapshot that has not settled would be loaded with that state.
  lemma TerminalStateSurvivesRestarts(n: nat, limit: int, before: seq<Action>, i: nat)
    requires n >= 1 && limit >= 1
    requires var s := Exec(Init(n, limit), before); InRange(s, i) && Terminal(s.job.runs[i].state)
    ensures var s := Exec(Init(n, limit), before); var state := s.job.runs[i].state;
      (forall after :: InState(Exec(s, after), i, state))
      <==> Absorbing(s.tasks[i].pc, state, s.queue) && Lasting(s.queue, ShowsRun(i, state))
  {
    ReachableKnown(n, limit, before);
    SurvivesIff(Exec(Init(n, limit), before), i);
  }

  lemma SurvivesIff(s: Sys, i: nat)
    requires Known(s) && InRange(s, i) && Terminal(s.job.runs[i].state)
    ensures var state := s.job.runs[i].state;
      (forall after :: InState(Exec(s, after), i, state))
      <==> Absorbing(s.tasks[i].pc, state, s.queue) && Lasting(s.queue, ShowsRun(i, state))
  {
    var state := s.job.runs[i].state;
    if !Absorbing(s.tasks[i].pc, state, s.queue) {
      var after := Leaves(s, i);
      assert !InState(Exec(s, after), i, state);
    } else if !Lasting(s.queue, ShowsRun(i, state)) {
      assert Queue.Linked(s.queue);
      var after := CanLose(s, ShowsRun(i, state));
      assert !InState(Exec(s, after), i, state);
    } else {
      forall after
        ensures InState(Exec(s, after), i, state)
      {
        StateForever(s, after, i, state);
      }
    }
    hide Known;
    hide Absorbing;
    hide Lasting;
    hide Queue.Linked;
  }

  // ----- What a restart reads -----

  // An active run can only have failed; any other keeps every field.
  predicate RunRead(saved: Run, run: Run) {
    run == if Active(saved.state) then saved.(state := FAILED, error := Some(GatewayRestarted)) else saved
  }

  // What the file says of a job that another process left behind.
  predicate ReadFrom(saved: Job, job: Job) {
    && |job.runs| == |saved.runs|
    && job.cancelRequested == saved.cancelRequested
    && job.error == saved.error && job.persistenceError == saved.persistenceError
    && (forall k :: 0 <= k < |job.runs| ==> RunRead(saved.runs[k], job.runs[k]))
    && (if Recovery.Interrupted(saved) then job.status == FAILED_JOB && job.recovered
        else job.status == saved.status && job.recovered == saved.recovered)
  }

  // A restart, at any moment: without a file it finds nothing; from a file it reads the job, every
  // frame and session is gone, and the job is written back if and only if it was interrupted.
  lemma RestartReadsFile(s: Sys)
    ensures var t := Next(s, Restart);
      match s.queue.disk
      case None => t == s
      case Some(saved) =>
        && ReadFrom(saved, t.job) && t.queue.disk == s.queue.disk
        && t.executor.Reloaded? && t.active == {} && t.cancels == [] && |t.tasks| == |t.job.runs|
        && (forall k :: 0 <= k < |t.tasks| ==> t.tasks[k].pc.Done? && t.tasks[k].session.None?)
        && (if Recovery.Interrupted(saved)
            then |t.queue.ops| == 1 && t.queue.ops[0].snapshot == t.job && t.queue.ops[0].phase.Waiting?
            else t.queue.ops == [])
  {
    match s.queue.disk {
      case None =>
      case Some(saved) => RepairReads(saved);
    }
    hide Repair;
  }

  lemma RepairReads(saved: Job)
    ensures ReadFrom(saved, Repair(saved)) && (NeedsRepair(saved) <==> Recovery.Interrupted(saved))
  {
  }
}
