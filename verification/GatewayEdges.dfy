// Where the gateway's promises stop: exact conditions, with the schedules that break them.
module GatewayEdges {
  import opened Wrappers
  import opened GatewayModel
  import opened GatewayInvariant
  import opened GatewayTheorems
  import opened GatewaySessions
  import Queue = PersistQueue
  import Pool = WorkerPool

  // ----- Schedules -----

  lemma {:induction false} ExecConcat(s: Sys, a: seq<Action>, b: seq<Action>)
    ensures Exec(s, a + b) == Exec(Exec(s, a), b)
    decreases |a|
  {
    if a == [] {
      assert a + b == b;
    } else {
      assert (a + b)[0] == a[0] && (a + b)[1..] == a[1..] + b;
      ExecConcat(Next(s, a[0]), a[1..], b);
    }
  }

  lemma One(s: Sys, a: Action)
    ensures Exec(s, [a]) == Next(s, a)
  {
    assert Exec(Next(s, a), [a][1..]) == Next(s, a);
  }

  // One write goes all the way to the disk and its caller resumes.
  function Land(op: nat): seq<Action> {
    [DiskWrite(op, true), DiskWrite(op, true), DiskWrite(op, true), WriteReturns(op)]
  }

  function Landed<S>(q: Queue.Queue<S>, op: nat): Queue.Queue<S>
    requires op < |q.ops|
  {
    Queue.Queue(
      q.ops[op := q.ops[op].(phase := Queue.Landed, released := true)],
      if q.entry == Some(op) then None else q.entry, Some(q.ops[op].snapshot), q.landings + [op])
  }

  lemma QueueLands<S>(q: Queue.Queue<S>, op: nat)
    requires op < |q.ops| && q.ops[op].phase.Waiting? && !q.ops[op].released && Queue.MayStart(q, op)
    ensures Queue.Release(Queue.Advance(Queue.Advance(Queue.Advance(q, op, true), op, true), op, true), op) ==
      Landed(q, op)
  {
    var q1 := Queue.Advance(q, op, true);
    var q2 := Queue.Advance(q1, op, true);
    assert q2.ops == q.ops[op := q.ops[op].(phase := Queue.Renaming)];
    var q3 := Queue.Advance(q2, op, true);
    assert q3.ops == q.ops[op := q.ops[op].(phase := Queue.Landed)];
    assert Queue.Release(q3, op).ops == Landed(q, op).ops;
  }

  lemma FourSteps(s: Sys, a: Action, b: Action, c: Action, d: Action)
    ensures Exec(s, [a, b, c, d]) == Next(Next(Next(Next(s, a), b), c), d)
  {
    assert [a, b, c, d] == [a] + ([b] + ([c] + [d]));
    One(s, a);
    One(Next(s, a), b);
    One(Next(Next(s, a), b), c);
    One(Next(Next(Next(s, a), b), c), d);
    hide Next;
    ExecConcat(s, [a], [b] + ([c] + [d]));
    ExecConcat(Next(s, a), [b], [c] + [d]);
    ExecConcat(Next(Next(s, a), b), [c], [d]);
  }

  lemma Lands(s: Sys, op: nat)
    requires op < |s.queue.ops| && s.queue.ops[op].phase.Waiting? && !s.queue.ops[op].released
      && Queue.MayStart(s.queue, op)
    ensures Exec(s, Land(op)) == s.(queue := Landed(s.queue, op))
  {
    var write, q := DiskWrite(op, true), s.queue;
    FourSteps(s, write, write, write, WriteReturns(op));
    QueueLands(q, op);
    hide Exec;
    hide Queue.Advance;
    hide Queue.Release;
    hide Landed;
    var q1 := Queue.Advance(q, op, true);
    var q2 := Queue.Advance(q1, op, true);
    var q3 := Queue.Advance(q2, op, true);
    assert Next(s, write) == s.(queue := q1);
    assert Next(s.(queue := q1), write) == s.(queue := q2);
    assert Next(s.(queue := q2), write) == s.(queue := q3);
    assert Next(s.(queue := q3), WriteReturns(op)) == s.(queue := Queue.Release(q3, op));
  }

  // Submitting, with the first snapshot saved.
  function Submitted(n: nat, limit: int): Sys {
    var s := Init(n, limit);
    s.(queue := Queue.Queue([Queue.Op(s.job, None, Queue.Landed, true)], None, Some(s.job), [0]),
       executor := Pooling, pool := Pool.Start(n, limit))
  }

  lemma Submits(n: nat, limit: int)
    ensures Exec(Init(n, limit), Land(0) + [SubmitResumes]) == Submitted(n, limit)
  {
    var s := Init(n, limit);
    Lands(s, 0);
    ExecConcat(s, Land(0), [SubmitResumes]);
    One(Exec(s, Land(0)), SubmitResumes);
  }

  // ----- A cap below one -----

  lemma {:induction false} CountNone(runs: seq<Run>, state: RunState)
    requires forall i :: 0 <= i < |runs| ==> runs[i].state != state
    ensures CountState(runs, state) == 0
  {
    if runs != [] {
      CountNone(runs[..|runs| - 1], state);
    }
  }

  // With a limit below one the pool resolves with every run still QUEUED and the job is settled
  // as FAILED: the bound of the other theorems cannot be dropped.
  lemma NoWorkerStrandsEveryRun(n: nat, limit: int)
    requires n >= 1 && limit < 1
    ensures var s := Exec(Init(n, limit), Land(0) + [SubmitResumes] + [PoolSettles]);
      && s.executor.Committing? && s.executor.verdict == FAILED_JOB
      && |s.job.runs| == n
      && forall i :: 0 <= i < n ==> s.job.runs[i].state == QUEUED
  {
    Submits(n, limit);
    var s := Submitted(n, limit);
    ExecConcat(Init(n, limit), Land(0) + [SubmitResumes], [PoolSettles]);
    One(s, PoolSettles);
    CountNone(s.job.runs, SUCCEEDED);
    assert !s.job.cancelRequested;
    assert |s.pool.workers| == 0;
  }

  function Max(a: int, b: int): int {
    if a < b then b else a
  }

  function Min(a: int, b: int): int {
    if a < b then a else b
  }

  // runtime.mjs 383-386: `value` is None when the body holds no integer.
  function ClampInteger(value: Option<int>, min: int, max: int, fallback: int): int {
    Min(max, Max(min, if value.Some? then value.value else fallback))
  }

  // runtime.mjs 359
  function MaxConcurrency(requested: Option<int>, configured: Option<int>): int {
    var cap := if configured.Some? then configured.value else 4;
    ClampInteger(requested, 1, cap, cap)
  }

  // The limit nearest to what was asked for, from one up to the cap.
  predicate Nearest(limit: int, wanted: int, cap: int) {
    1 <= limit <= cap && forall x :: 1 <= x <= cap ==> Distance(limit, wanted) <= Distance(x, wanted)
  }

  function Distance(a: int, b: int): int {
    if a < b then b - a else a - b
  }

  // With a cap that allows a worker, the limit is the nearest one to the request, or the cap without
  // one; no more sessions than that are ever active, and never more than the client asked for.
  lemma RequestedLimitHolds(n: nat, requested: Option<int>, configured: Option<int>, actions: seq<Action>)
    requires n >= 1 && (configured.Some? ==> configured.value >= 1)
    ensures var cap := if configured.Some? then configured.value else 4;
      var limit := MaxConcurrency(requested, configured);
      var s := Exec(Init(n, limit), actions);
      && Nearest(limit, if requested.Some? then requested.value else cap, cap)
      && |s.active| <= limit
      && (requested.Some? && requested.value >= 1 ==> |s.active| <= requested.value)
  {
    hide Exec;
    BoundedConcurrency(n, MaxConcurrency(requested, configured), actions);
  }

  // Whatever a client asks for, a resolved pool means terminal runs in every schedule if and only
  // if the configured cap is absent or at least one.
  lemma ConfiguredCapDecides(n: nat, requested: Option<int>, configured: Option<int>)
    requires n >= 1
    ensures var start := Init(n, MaxConcurrency(requested, configured));
      (forall actions :: Resolved(Exec(start, actions)) ==> AllTerminal(Exec(start, actions)))
      <==> configured.None? || configured.value >= 1
  {
    var limit := MaxConcurrency(requested, configured);
    if limit >= 1 {
      forall actions | Resolved(Exec(Init(n, limit), actions))
        ensures AllTerminal(Exec(Init(n, limit), actions))
      {
        ResolvedMeansTerminal(n, limit, actions);
      }
    } else {
      NoWorkerStrandsEveryRun(n, limit);
      var s := Exec(Init(n, limit), Land(0) + [SubmitResumes] + [PoolSettles]);
      assert Resolved(s) && s.job.runs[0].state == QUEUED;
    }
    hide Exec;
    hide Init;
    hide Land;
  }

  // ----- The window between the commit write and the assignment -----

  // After a published verdict the next process shows the same verdict exactly when the newest
  // saved snapshot was not one taken between the commit and the assignment (or the verdict is
  // FAILED, which repair also says).
  lemma ReloadKeepsVerdict(n: nat, limit: int, actions: seq<Action>, k: nat)
    requires n >= 1 && limit >= 1
    requires var s := Exec(Init(n, limit), actions);
      && s.executor.Published?
      && k < |s.queue.ops| && s.queue.ops[k].phase.Landed?
      && forall j :: k < j < |s.queue.ops| ==> !s.queue.ops[j].phase.Landed?
    ensures var s := Exec(Init(n, limit), actions);
      Next(s, Restart).job.status == s.job.status <==>
      s.job.status == FAILED_JOB || !(s.executor.op < k < s.executor.at)
  {
    Reachable(n, limit, actions);
    InitInv(n, limit);
    InitCurrent(n, limit);
    DiskIsNewest(Init(n, limit), actions);
    var s := Exec(Init(n, limit), actions);
    var w := Queue.NewestWitness(s.queue.ops, s.queue.disk);
    assert w == k;
    assert k >= s.executor.op by { assert s.queue.ops[s.executor.op].phase.Landed?; }
    hide Queue.Current;
    ReloadStatus(s, k);
  }

  lemma ReloadStatus(s: Sys, k: nat)
    requires Inv(s) && s.executor.Published? && s.executor.op <= k < |s.queue.ops|
    requires s.queue.disk == Some(s.queue.ops[k].snapshot)
    ensures Next(s, Restart).job.status == s.job.status <==>
      s.job.status == FAILED_JOB || !(s.executor.op < k < s.executor.at)
  {
    WindowStatus(s, k);
    FrozenNeedsRepair(s, k);
    ReloadedJob(s);
    hide Inv;
    hide Next;
    hide NeedsRepair;
  }

  lemma ReloadedJob(s: Sys)
    requires s.queue.disk.Some?
    ensures Next(s, Restart).job == Repair(s.queue.disk.value)
  {
    hide Repair;
    hide NeedsRepair;
  }

  lemma CommitShown(s: Sys, op: nat, verdict: Status)
    requires CommitOk(s, op, verdict)
    ensures op < |s.queue.ops| && s.queue.ops[op].snapshot.status == verdict != InProgress
    ensures AllDone(s) && FrozenFrom(s, op)
  {
    hide AllDone;
    hide FrozenFrom;
  }

  // Between commit and assignment a snapshot still says RUNNING; from then on it shows the verdict.
  lemma WindowStatus(s: Sys, k: nat)
    requires Inv(s) && s.executor.Published? && s.executor.op <= k < |s.queue.ops|
    ensures s.job.status == s.executor.verdict != InProgress
    ensures s.queue.ops[k].snapshot.status ==
      if s.executor.op < k < s.executor.at then InProgress else s.executor.verdict
  {
    hide Inv;
    hide CommitOk;
    hide DiskSince;
    hide AllDone;
    hide FrozenFrom;
    PublishedAt(s);
    CommitShown(s, s.executor.op, s.executor.verdict);
  }

  // No snapshot since the commit shows an active run, so repair looks at the status alone.
  lemma FrozenNeedsRepair(s: Sys, k: nat)
    requires Inv(s) && s.executor.Published? && s.executor.op <= k < |s.queue.ops|
    ensures NeedsRepair(s.queue.ops[k].snapshot) <==> s.queue.ops[k].snapshot.status == InProgress
  {
    hide Inv;
    hide AllDone;
    FrozenAt(s, k);
    DoneIsFinal(s);
    var saved := s.queue.ops[k].snapshot;
    assert forall i :: 0 <= i < |saved.runs| ==> Core(saved.runs[i]) == Core(s.job.runs[i]);
    assert forall i :: 0 <= i < |saved.runs| ==> !Active(saved.runs[i].state);
  }

  lemma FrozenAt(s: Sys, k: nat)
    requires Inv(s) && s.executor.Published? && s.executor.op <= k < |s.queue.ops|
    ensures AllDone(s) && SameCores(s.queue.ops[k].snapshot.runs, s.job.runs)
  {
    hide Inv;
    hide CommitOk;
    hide DiskSince;
    hide AllDone;
    hide SameCores;
    PublishedAt(s);
    CommitShown(s, s.executor.op, s.executor.verdict);
  }

  lemma InitCurrent(n: nat, limit: int)
    ensures Queue.Current(Init(n, limit).queue)
  {
    var s := Init(n, limit);
    assert s.queue.ops[..0] == [];
  }

  // A schedule that loses a verdict: one run, cancelled before it is claimed; a second cancelJob
  // lands between the commit write and the assignment.
  function Cancelled(): seq<Action> {
    [CancelJob, WorkerResumes(0, true)] + Land(1) + Land(2) +
    [PersistReturns(0), WorkerResumes(0, true), PoolSettles, CancelJob]
  }

  function Lost(): seq<Action> {
    Land(0) + [SubmitResumes] + Cancelled() + Land(3) + [CommitReturns] + Land(4)
  }

  lemma TwoSteps(s: Sys, a: Action, b: Action)
    ensures Exec(s, [a, b]) == Next(Next(s, a), b)
  {
    assert [a, b] == [a] + [b];
    ExecConcat(s, [a], [b]);
    One(s, a);
    One(Next(s, a), b);
  }

  function CancelledRecord(): Job {
    Job(InProgress, true, false, false, false, [NewRun().(state := CANCELLED)])
  }

  // The only run was claimed after the first cancelJob; two writes wait.
  predicate Claimed(s: Sys) {
    && s.job == CancelledRecord() && s.active == {} && s.executor == Pooling
    && s.tasks == [Task(AwaitCancelPersist(2), 0, None)]
    && s.pool == Pool.Pool(1, 1, [Pool.Busy(0)], [0], {})
    && |s.queue.ops| == 3 && s.queue.entry == Some(2)
    && s.queue.ops[1] == Queue.Op(s.job, None, Queue.Waiting, false)
    && s.queue.ops[2] == Queue.Op(s.job, Some(1), Queue.Waiting, false)
  }

  lemma ReachesClaimed()
    ensures Claimed(Exec(Submitted(1, 1), [CancelJob, WorkerResumes(0, true)]))
  {
    var s := Submitted(1, 1);
    TwoSteps(s, CancelJob, WorkerResumes(0, true));
    assert SweepStop(s.job.runs, s.active, 0) == 1;
    var t := Next(s, CancelJob);
    assert t.job.runs == CancelledRecord().runs;
    assert t.pool == s.pool && t.tasks == s.tasks && t.queue == Queue.Enqueue(s.queue, t.job);
    var u := Next(t, WorkerResumes(0, true));
    assert u.job.runs == CancelledRecord().runs;
    assert u.pool.claims == [0];
  }

  // Both writes are on disk and their callers resumed.
  predicate Saved2(s: Sys) {
    && s.job == CancelledRecord() && s.active == {} && s.executor == Pooling
    && s.tasks == [Task(AwaitCancelPersist(2), 0, None)]
    && s.pool == Pool.Pool(1, 1, [Pool.Busy(0)], [0], {})
    && |s.queue.ops| == 3 && s.queue.entry == None
    && s.queue.ops[2] == Queue.Op(s.job, Some(1), Queue.Landed, true)
  }

  lemma ReachesSaved(s: Sys)
    requires Claimed(s)
    ensures Saved2(Exec(s, Land(1) + Land(2)))
  {
    Lands(s, 1);
    Lands(s.(queue := Landed(s.queue, 1)), 2);
    ExecConcat(s, Land(1), Land(2));
  }

  // The state after the second cancelJob: verdict chosen, its write and a later one still waiting.
  predicate InWindow(s: Sys) {
    && |s.queue.ops| == 5 && s.executor == Committing(3, CANCELLED_JOB)
    && s.job == CancelledRecord()
    && s.queue.ops[3] == Queue.Op(s.job.(status := CANCELLED_JOB), None, Queue.Waiting, false)
    && s.queue.ops[4] == Queue.Op(s.job, Some(3), Queue.Waiting, false)
  }

  lemma ReachesWindow(s: Sys)
    requires Saved2(s)
    ensures InWindow(Exec(s, [PersistReturns(0), WorkerResumes(0, true), PoolSettles, CancelJob]))
  {
    FourSteps(s, PersistReturns(0), WorkerResumes(0, true), PoolSettles, CancelJob);
    var s1 := Next(s, PersistReturns(0));
    assert s1 == s.(tasks := [Task(Done, 0, None)]);
    var s2 := Next(s1, WorkerResumes(0, true));
    assert s2 == s1.(pool := Pool.Pool(1, 1, [Pool.Retired], [0], {0}));
    assert s2.job.runs[..0] == [];
    assert Verdict(s2.job) == CANCELLED_JOB;
    var s3 := Next(s2, PoolSettles);
    var copy := s2.job.(status := CANCELLED_JOB);
    assert s3 == s2.(queue := Queue.Enqueue(s2.queue, copy), executor := Committing(3, CANCELLED_JOB));
    assert SweepStop(s3.job.runs, s3.active, 0) == 1;
    assert SweepRuns(s3.job.runs, 0, 1) == s3.job.runs;
    assert s3.job.(cancelRequested := true) == s3.job;
  }

  // The published verdict is CANCELLED, and the next process says FAILED.
  lemma LosesVerdict(s: Sys)
    requires InWindow(s)
    ensures var t := Exec(s, Land(3) + [CommitReturns] + Land(4));
      t.executor.Published? && t.job.status == CANCELLED_JOB && Next(t, Restart).job.status == FAILED_JOB
  {
    Lands(s, 3);
    var s2 := s.(queue := Landed(s.queue, 3));
    var s3 := Next(s2, CommitReturns);
    assert s3 == s2.(job := s2.job.(status := CANCELLED_JOB), executor := Published(3, CANCELLED_JOB, 5));
    One(s2, CommitReturns);
    hide Exec;
    hide Land;
    LandsUnfinished(s3);
    ExecConcat(s, Land(3), [CommitReturns]);
    ExecConcat(s, Land(3) + [CommitReturns], Land(4));
    hide Next;
    hide Landed;
  }

  // The snapshot of the second cancelJob lands last, and says RUNNING.
  lemma LandsUnfinished(s: Sys)
    requires |s.queue.ops| == 5 && s.queue.ops[4].phase.Waiting? && !s.queue.ops[4].released
    requires Queue.MayStart(s.queue, 4) && s.queue.ops[4].snapshot == CancelledRecord()
    ensures var t := Exec(s, Land(4));
      t.executor == s.executor && t.job == s.job && Next(t, Restart).job.status == FAILED_JOB
  {
    Lands(s, 4);
    var t := s.(queue := Landed(s.queue, 4));
    ReloadedJob(t);
    hide Exec;
    hide Land;
    hide Next;
  }

  // The counterexample: with Lost() as the schedule of a one-run job, a restart changes a
  // published CANCELLED verdict to FAILED.
  lemma WindowWriteLosesVerdict()
    ensures var s := Exec(Init(1, 1), Lost());
      s.executor.Published? && s.job.status == CANCELLED_JOB && Next(s, Restart).job.status == FAILED_JOB
  {
    var a := Land(0) + [SubmitResumes];
    var b := [CancelJob, WorkerResumes(0, true)];
    var c := Land(1) + Land(2);
    var d := [PersistReturns(0), WorkerResumes(0, true), PoolSettles, CancelJob];
    var e := Land(3) + [CommitReturns] + Land(4);
    assert Lost() == a + (b + (c + (d + e)));
    Submits(1, 1);
    ReachesClaimed();
    var s1 := Exec(Submitted(1, 1), b);
    ReachesSaved(s1);
    var s2 := Exec(s1, c);
    ReachesWindow(s2);
    LosesVerdict(Exec(s2, d));
    hide Claimed;
    hide Saved2;
    hide InWindow;
    hide Next;
    hide Land;
    ExecConcat(Init(1, 1), a, b + (c + (d + e)));
    ExecConcat(Submitted(1, 1), b, c + (d + e));
    ExecConcat(s1, c, d + e);
    ExecConcat(s2, d, e);
  }

  // ----- The window between the cancel check and activeRuns.set -----

  // A cancelJob that lands while health() is awaited marks the run CANCELLED, and the run goes on
  // to STARTING all the same: a terminal state is final only once a terminal event gave it, or
  // its frame is gone.
  lemma WindowMarkIsOverwritten(n: nat, limit: int, actions: seq<Action>, i: nat)
    requires n >= 1 && limit >= 1
    requires var s := Exec(Init(n, limit), actions);
      && i < |s.tasks| && s.tasks[i].pc.AwaitHealth?
      && forall k :: k in s.active ==> k > i
    ensures var s := Next(Exec(Init(n, limit), actions), CancelJob);
      && i < |s.job.runs| && s.job.runs[i].state == CANCELLED
      && var t := Next(s, HealthReturns(i, Healthy));
         i < |t.job.runs| && t.job.runs[i].state == STARTING && t.tasks[i].pc.AwaitStartingPersist?
  {
    Reachable(n, limit, actions);
    var s := Exec(Init(n, limit), actions);
    assert TaskOk(s.job.runs[i], s.tasks[i], i in s.active);
    assert |s.tasks| == |s.job.runs|;
    hide Inv;
    hide Exec;
    SweepStops(s.job.runs, s.active, 0);
    MarkedAndOverwritten(s, i);
  }

  lemma MarkedAndOverwritten(s: Sys, i: nat)
    requires InRange(s, i) && s.tasks[i].pc.AwaitHealth?
      && (s.job.runs[i].state == CANCELLED || !Terminal(s.job.runs[i].state))
    requires i < SweepStop(s.job.runs, s.active, 0)
    ensures var c := Next(s, CancelJob);
      && InRange(c, i) && c.job.runs[i].state == CANCELLED && c.tasks[i].pc == AwaitHealth
      && var t := Next(c, HealthReturns(i, Healthy));
         InRange(t, i) && t.job.runs[i].state == STARTING && t.tasks[i].pc.AwaitStartingPersist?
  {
    var u := s.(job := s.job.(cancelRequested := true));
    var (t, c) := Sweep(u, 0);
    assert SweepStop(u.job.runs, u.active, 0) == SweepStop(s.job.runs, s.active, 0);
    hide SweepStop;
    assert InRange(t, i) && t.job.runs[i].state == CANCELLED;
    assert t.tasks[i].pc == AwaitHealth;
  }

  // ----- A job reported FAILED while a worker goes on -----

  // Two claimed runs: the first one's health check threw and rejected the pool.
  function Rejecting(): seq<Action> {
    [WorkerResumes(0, true), WorkerResumes(1, true), HealthReturns(0, HealthThrows), WorkerResumes(0, true)]
  }

  predicate Rejected2(s: Sys) {
    && s.executor == Pooling && s.job == Job(InProgress, false, false, false, false, [NewRun(), NewRun()])
      && s.active == {}
    && s.tasks == [Task(Threw, 1, None), Task(AwaitHealth, 1, None)]
    && s.pool.workers == [Pool.Rejected(0), Pool.Busy(1)]
    && |s.queue.ops| == 1 && s.queue.entry == None
  }

  // Both runs were claimed and wait for the answer of a health check.
  predicate Checking(s: Sys) {
    && s.executor == Pooling && s.job == Job(InProgress, false, false, false, false, [NewRun(), NewRun()])
    && s.active == {} && s.tasks == [Task(AwaitHealth, 1, None), Task(AwaitHealth, 1, None)]
    && s.pool.workers == [Pool.Busy(0), Pool.Busy(1)]
    && |s.queue.ops| == 1 && s.queue.entry == None
  }

  lemma ReachesChecking()
    ensures Checking(Exec(Submitted(2, 2), [WorkerResumes(0, true), WorkerResumes(1, true)]))
  {
    var s := Submitted(2, 2);
    TwoSteps(s, WorkerResumes(0, true), WorkerResumes(1, true));
    hide Exec;
    assert s.pool.workers == [Pool.Ready, Pool.Ready] && s.job.runs == [NewRun(), NewRun()];
    assert s.tasks == [Task(Unclaimed, 0, None), Task(Unclaimed, 0, None)];
    var t := Next(s, WorkerResumes(0, true));
    assert t.tasks == [Task(AwaitHealth, 1, None), Task(Unclaimed, 0, None)];
    assert t.pool.workers == [Pool.Busy(0), Pool.Ready] && t.pool.next == 1;
  }

  lemma ReachesRejected()
    ensures Rejected2(Exec(Submitted(2, 2), Rejecting()))
  {
    ReachesChecking();
    var a, b := [WorkerResumes(0, true), WorkerResumes(1, true)],
      [HealthReturns(0, HealthThrows), WorkerResumes(0, true)];
    assert Rejecting() == a + b;
    ExecConcat(Submitted(2, 2), a, b);
    Rejects(Exec(Submitted(2, 2), a));
    hide Exec;
    hide Checking;
    hide Rejected2;
    hide Submitted;
  }

  lemma Rejects(s: Sys)
    requires Checking(s)
    ensures Rejected2(Exec(s, [HealthReturns(0, HealthThrows), WorkerResumes(0, true)]))
  {
    TwoSteps(s, HealthReturns(0, HealthThrows), WorkerResumes(0, true));
    hide Exec;
    var t := Next(s, HealthReturns(0, HealthThrows));
    assert t.tasks == [Task(Threw, 1, None), Task(AwaitHealth, 1, None)];
  }

  // The job shows FAILED; the second run stands at `pc`, and `wait` of the writes are settled or,
  // if it awaits one, still waiting.
  predicate FailedWith(s: Sys, pc: Pc, session: Option<Session>, state: RunState, writes: nat, waiting: bool) {
    && s.executor == FailurePublished(1) && s.job.status == FAILED_JOB
    && |s.job.runs| == 2 && s.job.runs[1] == NewRun().(state := state)
    && |s.tasks| == 2 && s.tasks[1].pc == pc && s.tasks[1].session == session
    && |s.queue.ops| == writes
    && (if waiting
        then writes > 0 && s.queue.entry == Some(writes - 1) && s.queue.ops[writes - 1].previous == None
             && s.queue.ops[writes - 1].phase.Waiting? && !s.queue.ops[writes - 1].released
        else s.queue.entry == None)
  }

  lemma ReachesFailed(s: Sys)
    requires Rejected2(s)
    ensures var t := Exec(s, [PoolSettles] + Land(1) + [CommitReturns]);
      && FailedWith(t, AwaitHealth, None, QUEUED, 2, false)
      && forall i :: 0 <= i < |t.job.runs| ==> t.job.runs[i].state != SUCCEEDED
  {
    var t := Next(s, PoolSettles);
    assert s.pool.workers[0].Rejected?;
    assert t == CommitFailure(s);
    One(s, PoolSettles);
    Lands(t, 1);
    var u := t.(queue := Landed(t.queue, 1));
    One(u, CommitReturns);
    ExecConcat(s, [PoolSettles], Land(1));
    ExecConcat(s, [PoolSettles] + Land(1), [CommitReturns]);
  }

  // The awaited write lands, the frame resumes, and the adapter answers `next`.
  lemma GoesOn(s: Sys, op: nat, next: Action)
    requires op < |s.queue.ops| && s.queue.ops[op].phase.Waiting? && !s.queue.ops[op].released
      && Queue.MayStart(s.queue, op)
    ensures Exec(s, Land(op) + [PersistReturns(1), next]) ==
      Next(Next(s.(queue := Landed(s.queue, op)), PersistReturns(1)), next)
  {
    Lands(s, op);
    TwoSteps(s.(queue := Landed(s.queue, op)), PersistReturns(1), next);
    ExecConcat(s, Land(op), [PersistReturns(1), next]);
  }

  lemma HealthPasses(s: Sys)
    requires FailedWith(s, AwaitHealth, None, QUEUED, 2, false)
    ensures FailedWith(Next(s, HealthReturns(1, Healthy)), AwaitStartingPersist(2), None, STARTING, 3, true)
  {
  }

  lemma StartingSaved(s: Sys)
    requires FailedWith(s, AwaitStartingPersist(2), None, STARTING, 3, true)
    ensures FailedWith(Next(s.(queue := Landed(s.queue, 2)), PersistReturns(1)), AwaitCreateSession, None, STARTING,
      3, false)
  {
  }

  lemma SessionOpens(s: Sys)
    requires FailedWith(s, AwaitCreateSession, None, STARTING, 3, false)
    ensures FailedWith(Next(s, SessionReturns(1, true)), AwaitRunningPersist(3), Some(Session(0, 0, 0, false)), RUNNING,
      4, true)
  {
  }

  lemma ReachesRunning(s: Sys)
    requires FailedWith(s, AwaitHealth, None, QUEUED, 2, false)
    ensures FailedWith(Exec(s, [HealthReturns(1, Healthy)] + (Land(2) + [PersistReturns(1), SessionReturns(1, true)])),
      AwaitRunningPersist(3), Some(Session(0, 0, 0, false)), RUNNING, 4, true)
  {
    hide Land;
    hide Next;
    hide Landed;
    var t := Next(s, HealthReturns(1, Healthy));
    One(s, HealthReturns(1, Healthy));
    hide Exec;
    HealthPasses(s);
    GoesOn(t, 2, SessionReturns(1, true));
    StartingSaved(t);
    SessionOpens(Next(t.(queue := Landed(t.queue, 2)), PersistReturns(1)));
    ExecConcat(s, [HealthReturns(1, Healthy)], Land(2) + [PersistReturns(1), SessionReturns(1, true)]);
  }

  lemma ReachesSuccess(s: Sys)
    requires FailedWith(s, AwaitRunningPersist(3), Some(Session(0, 0, 0, false)), RUNNING, 4, true)
    ensures var t := Exec(s, Land(3) + [PersistReturns(1), StreamReturns(1, Yields(Events.RunSucceeded))]);
      t.executor.FailurePublished? && t.job.status == FAILED_JOB && |t.job.runs| == 2
        && t.job.runs[1].state == SUCCEEDED
  {
    GoesOn(s, 3, StreamReturns(1, Yields(Events.RunSucceeded)));
    StreamBegins(s);
    Succeeds(Next(s.(queue := Landed(s.queue, 3)), PersistReturns(1)));
    hide Land;
    hide Exec;
    hide Next;
    hide Landed;
  }

  lemma StreamBegins(s: Sys)
    requires FailedWith(s, AwaitRunningPersist(3), Some(Session(0, 0, 0, false)), RUNNING, 4, true)
    ensures FailedWith(Next(s.(queue := Landed(s.queue, 3)), PersistReturns(1)),
      AwaitNext, Some(Session(1, 0, 0, false)), RUNNING, 4, false)
  {
  }

  lemma Succeeds(s: Sys)
    requires FailedWith(s, AwaitNext, Some(Session(1, 0, 0, false)), RUNNING, 4, false)
    ensures var t := Next(s, StreamReturns(1, Yields(Events.RunSucceeded)));
      t.executor.FailurePublished? && t.job.status == FAILED_JOB && |t.job.runs| == 2
        && t.job.runs[1].state == SUCCEEDED
  {
  }

  // A thrown health check commits the job FAILED, and a run that another worker holds still
  // succeeds afterwards: FAILED by an engine error says nothing about the runs.
  lemma FailedJobGainsSuccess()
    ensures exists before, after ::
      var s, t := Exec(Init(2, 2), before), Exec(Exec(Init(2, 2), before), after);
      && s.executor.FailurePublished? && s.job.status == FAILED_JOB
        && (forall i :: 0 <= i < |s.job.runs| ==> s.job.runs[i].state != SUCCEEDED)
      && t.executor.FailurePublished? && t.job.status == FAILED_JOB && |t.job.runs| == 2
        && t.job.runs[1].state == SUCCEEDED
  {
    hide Exec;
    hide Land;
    hide Next;
    hide Submitted;
    hide Rejected2;
    var a, b, c := Land(0) + [SubmitResumes], Rejecting(), [PoolSettles] + Land(1) + [CommitReturns];
    var before := a + (b + c);
    Submits(2, 2);
    ReachesRejected();
    ExecConcat(Init(2, 2), a, b + c);
    ExecConcat(Submitted(2, 2), b, c);
    var r := Exec(Submitted(2, 2), b);
    ReachesFailed(r);
    var s := Exec(Init(2, 2), before);
    var d := [HealthReturns(1, Healthy)] + (Land(2) + [PersistReturns(1), SessionReturns(1, true)]);
    var e := Land(3) + [PersistReturns(1), StreamReturns(1, Yields(Events.RunSucceeded))];
    ReachesRunning(s);
    ReachesSuccess(Exec(s, d));
    ExecConcat(s, d, e);
  }
}
