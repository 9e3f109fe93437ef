// The gateway object itself: three shared maps updated in place by many interleaved frames.
//
// `jobs`, `activeRuns` and `persistQueues` are the fields of the source.  `frames` holds what the
// suspended async calls of a job remember, `files` is the directory on disk.  View(j) projects the
// shared maps to the step system of job `j`; each method is one step of one job, and leaves the
// view of every other job as it was.
module GatewayRuntime {
  import opened Wrappers
  import Events
  import opened GatewayModel
  import Queue = PersistQueue
  import Pool = WorkerPool
  import Recovery
  import GatewayInvariant
  import GatewayTheorems
  import GatewaySessions
  import GatewayEdges
  import GatewayFinality
  import GatewayOutcome

  // Run ids are fresh and name their job.
  datatype RunId = RunId(job: nat, index: nat)

  datatype Frames = Frames(
    limit: int, tasks: seq<Task>, pool: Pool.Pool, executor: Executor, cancels: seq<Cancel>,
    writes: seq<Queue.Op<Job>>, landings: seq<nat>)

  function ActiveOf(active: set<RunId>, j: nat): set<nat> {
    set r | r in active && r.job == j :: r.index
  }

  lemma ActiveJoins(active: set<RunId>, j: nat, i: nat)
    ensures ActiveOf(active + {RunId(j, i)}, j) == ActiveOf(active, j) + {i}
    ensures forall k :: k != j ==> ActiveOf(active + {RunId(j, i)}, k) == ActiveOf(active, k)
    ensures i in ActiveOf(active, j) <==> RunId(j, i) in active
  {
    forall k
      ensures ActiveOf(active + {RunId(j, i)}, k) == ActiveOf(active, k) + (if k == j then {i} else {})
    {
      forall x | x in ActiveOf(active, k)
        ensures x in ActiveOf(active + {RunId(j, i)}, k)
      {
        assert RunId(k, x) in active + {RunId(j, i)};
      }
      if k == j {
        assert RunId(j, i) in active + {RunId(j, i)};
      }
    }
    if i in ActiveOf(active, j) {
      var r :| r in active && r.job == j && r.index == i;
      assert r == RunId(j, i);
    }
  }

  lemma ActiveLeaves(active: set<RunId>, j: nat, i: nat)
    ensures ActiveOf(active - {RunId(j, i)}, j) == ActiveOf(active, j) - {i}
    ensures forall k :: k != j ==> ActiveOf(active - {RunId(j, i)}, k) == ActiveOf(active, k)
  {
    forall k
      ensures ActiveOf(active - {RunId(j, i)}, k) == ActiveOf(active, k) - (if k == j then {i} else {})
    {
      forall x | x in ActiveOf(active, k) && !(k == j && x == i)
        ensures x in ActiveOf(active - {RunId(j, i)}, k)
      {
        assert RunId(k, x) in active - {RunId(j, i)};
      }
    }
  }

  // How a job came to be where it is: what was submitted, and every step since.
  datatype Origin = Origin(runs: nat, limit: int, actions: seq<Action>)

  function Replay(o: Origin): Sys {
    Exec(Init(o.runs, o.limit), o.actions)
  }

  function Then(o: Origin, a: Action): Origin {
    o.(actions := o.actions + [a])
  }

  lemma ReplayNew(n: nat, limit: int)
    ensures Replay(Origin(n, limit, [])) == Init(n, limit)
  {
  }

  lemma ReplayThen(o: Origin, a: Action)
    ensures Replay(Then(o, a)) == Next(Replay(o), a)
  {
    ExecThen(Init(o.runs, o.limit), o.actions, a);
  }

  lemma NoneActive(active: set<RunId>, j: nat)
    requires forall r :: r in active ==> r.job != j
    ensures ActiveOf(active, j) == {}
  {
  }

  class GatewayRuntime {
    var jobs: map<nat, Job>
    var activeRuns: set<RunId>
    var persistQueues: map<nat, nat>
    var frames: map<nat, Frames>
    var files: map<nat, Job>

    ghost var history: map<nat, Origin>

    // The maps agree on which jobs there are.
    ghost predicate Coherent()
      reads this`jobs, this`frames, this`persistQueues, this`activeRuns
    {
      && jobs.Keys == frames.Keys
      && persistQueues.Keys <= jobs.Keys
      && (forall r :: r in activeRuns ==> r.job in jobs)
    }

    // Between two steps every job is where its history leads.
    ghost predicate Valid()
      reads this
    {
      && Coherent()
      && files.Keys <= jobs.Keys && history.Keys == jobs.Keys
      && forall j {:trigger View(j)} :: j in jobs ==> View(j) == Replay(history[j])
    }

    // The step system of job `j`, as the shared maps show it.
    function View(j: nat): Sys
      requires Coherent() && j in jobs
      reads this`jobs, this`activeRuns, this`frames, this`persistQueues, this`files
    {
      var f := frames[j];
      Sys(f.limit, jobs[j], ActiveOf(activeRuns, j), f.tasks, f.pool, f.executor, f.cancels,
          Queue.Queue(f.writes, if j in persistQueues then Some(persistQueues[j]) else None,
                      if j in files then Some(files[j]) else None, f.landings))
    }

    twostate predicate OthersKept(j: nat)
      requires old(Coherent()) && Coherent()
      reads this`jobs, this`activeRuns, this`frames, this`persistQueues, this`files
    {
      && old(jobs.Keys) - {j} == jobs.Keys - {j}
      && old(files.Keys) - {j} == files.Keys - {j}
      && forall k {:trigger View(k)} :: k in jobs && k in old(jobs) && k != j ==> View(k) == old(View(k))
    }

    constructor ()
      ensures Valid() && jobs == map[] && files == map[]
    {
      jobs, activeRuns, persistQueues, frames, files, history := map[], {}, map[], map[], map[], map[];
    }

    // Nothing is known of a new job.
    lemma NewJob(j: nat)
      requires Valid() && j !in jobs
      ensures Coherent() && j !in files && j !in persistQueues && forall r :: r in activeRuns ==> r.job != j
    {
    }

    // Where one more step of a job leads.
    lemma Follows(j: nat, a: Action)
      requires Valid() && j in jobs
      ensures Coherent() && j in history && Replay(Then(history[j], a)) == Next(View(j), a)
    {
      assert View(j) == Replay(history[j]);
      ReplayThen(history[j], a);
    }

    // One job is where its history leads, and the others were left alone.
    twostate lemma Written(j: nat)
      requires old(Valid()) && Coherent() && j in jobs && OthersKept(j)
      requires j in history && history == old(history)[j := history[j]] && View(j) == Replay(history[j])
      ensures Valid()
    {
      hide Replay;
      hide ActiveOf;
      assert jobs.Keys == (jobs.Keys - {j}) + {j};
      assert history.Keys == jobs.Keys by {
        assert old(jobs.Keys) + {j} == (old(jobs.Keys) - {j}) + {j};
      }
      assert files.Keys <= jobs.Keys by {
        assert files.Keys - {j} <= old(jobs.Keys) - {j};
      }
      forall k | k in jobs
        ensures View(k) == Replay(history[k])
      {
        if k != j {
          assert k in jobs.Keys - {j};
          assert View(k) == old(View(k));
        }
      }
    }

    // ----- The pieces the steps are made of -----

    method SetFrames(j: nat, f: Frames)
      requires Coherent() && j in jobs
      modifies this`frames
      ensures Coherent() && frames == old(frames)[j := f] && OthersKept(j)
    {
      hide ActiveOf;
      frames := frames[j := f];
    }

    method SetRun(j: nat, i: nat, run: Run)
      requires Coherent() && j in jobs && i < |jobs[j].runs|
      modifies this`jobs
      ensures Coherent() && OthersKept(j) && j in jobs
      ensures View(j) == GatewayModel.SetRun(old(View(j)), i, run)
    {
      hide ActiveOf;
      jobs := jobs[j := jobs[j].(runs := jobs[j].runs[i := run])];
    }

    method SetTask(j: nat, i: nat, task: Task)
      requires Coherent() && j in jobs && i < |frames[j].tasks|
      modifies this`frames
      ensures Coherent() && OthersKept(j)
      ensures View(j) == old(View(j)).(tasks := old(View(j)).tasks[i := task])
    {
      hide ActiveOf;
      frames := frames[j := frames[j].(tasks := frames[j].tasks[i := task])];
    }

    method SetPc(j: nat, i: nat, pc: Pc)
      requires Coherent() && j in jobs && i < |frames[j].tasks|
      modifies this`frames
      ensures Coherent() && OthersKept(j)
      ensures View(j) == GatewayModel.SetPc(old(View(j)), i, pc)
    {
      hide ActiveOf;
      SetTask(j, i, frames[j].tasks[i].(pc := pc));
    }

    // Enqueue `snapshot` behind the newest unsettled write of the job and become the map entry.
    method Enqueue(j: nat, snapshot: Job) returns (ticket: nat)
      requires Coherent() && j in jobs
      modifies this`frames, this`persistQueues
      ensures Coherent() && OthersKept(j)
      ensures ticket == Ticket(old(View(j)))
      ensures View(j) == old(View(j)).(queue := Queue.Enqueue(old(View(j)).queue, snapshot))
      ensures persistQueues.Keys == old(persistQueues.Keys) + {j}
    {
      hide ActiveOf;
      var previous := if j in persistQueues then Some(persistQueues[j]) else None;
      ticket := |frames[j].writes|;
      var op := Queue.Op(snapshot, previous, Queue.Waiting, false);
      frames := frames[j := frames[j].(writes := frames[j].writes + [op])];
      persistQueues := persistQueues[j := ticket];
    }

    // #persist up to its await: the snapshot is the job as it is now.
    method Persist(j: nat) returns (ticket: nat)
      requires Coherent() && j in jobs
      modifies this`frames, this`persistQueues
      ensures Coherent() && OthersKept(j)
      ensures ticket == Ticket(old(View(j)))
      ensures View(j) == GatewayModel.Persist(old(View(j)))
      ensures persistQueues.Keys == old(persistQueues.Keys) + {j}
    {
      hide ActiveOf;
      ticket := Enqueue(j, jobs[j]);
    }

    method Activate(j: nat, i: nat)
      requires Coherent() && j in jobs
      modifies this`activeRuns
      ensures Coherent() && OthersKept(j)
      ensures View(j) == old(View(j)).(active := old(View(j)).active + {i})
    {
      ActiveJoins(activeRuns, j, i);
      activeRuns := activeRuns + {RunId(j, i)};
    }

    method Deactivate(j: nat, i: nat)
      requires Coherent() && j in jobs
      modifies this`activeRuns
      ensures Coherent() && OthersKept(j)
      ensures View(j) == old(View(j)).(active := old(View(j)).active - {i})
    {
      ActiveLeaves(activeRuns, j, i);
      activeRuns := activeRuns - {RunId(j, i)};
    }

    // ----- submitFanout and #execute -----

    // A new job enters the map and its first snapshot is enqueued.
    method Register(j: nat, n: nat, limit: int)
      requires Coherent() && j !in jobs && j !in files && j !in persistQueues
      requires forall r :: r in activeRuns ==> r.job != j
      modifies this`jobs, this`frames, this`persistQueues
      ensures Coherent() && OthersKept(j) && j in jobs
      ensures View(j) == Init(n, limit)
    {
      var job := Job(InProgress, false, false, false, false, seq(n, _ => NewRun()));
      jobs := jobs[j := job];
      var tasks := seq(n, _ => Task(Unclaimed, 0, None));
      frames := frames[j := Frames(limit, tasks, Pool.Start(0, 0), Submitting(0), [], [], [])];
      var ticket := Persist(j);
      NoneActive(activeRuns, j);
      hide ActiveOf;
    }

    method SubmitFanout(j: nat, n: nat, limit: int)
      requires Valid() && j !in jobs
      modifies this
      ensures Valid() && OthersKept(j) && j in jobs
      ensures View(j) == Init(n, limit)
      ensures history == old(history)[j := Origin(n, limit, [])]
    {
      hide Valid;
      NewJob(j);
      hide ActiveOf;
      hide Replay;
      Register(j, n, limit);
      ReplayNew(n, limit);
      history := history[j := Origin(n, limit, [])];
      Written(j);
    }

    method ReleaseWrite(j: nat, op: nat)
      requires Coherent() && j in jobs
      modifies this`jobs, this`frames, this`persistQueues, this`activeRuns, this`files
      ensures Coherent() && OthersKept(j) && j in jobs
      ensures View(j) == old(View(j)).(queue := Queue.Release(old(View(j)).queue, op))
    {
      hide ActiveOf;
      if op < |frames[j].writes| && Queue.Settled(frames[j].writes[op].phase) && !frames[j].writes[op].released {
        if j in persistQueues && persistQueues[j] == op {
          persistQueues := persistQueues - {j};
        }
        SetFrames(j, frames[j].(writes := frames[j].writes[op := frames[j].writes[op].(released := true)]));
      }
    }

    // #persist after its await: the write settled, the frame tidies the map (runtime.mjs 330-332).
    method WriteReturned(j: nat, op: nat)
      requires Valid() && j in jobs
      modifies this
      ensures Valid() && OthersKept(j) && j in jobs
      ensures View(j) == Next(old(View(j)), WriteReturns(op))
      ensures history == old(history)[j := Then(old(history)[j], WriteReturns(op))]
    {
      hide Valid;
      Follows(j, WriteReturns(op));
      hide Replay;
      hide Then;
      hide ActiveOf;
      hide Queue.Release;
      ReleaseWrite(j, op);
      history := history[j := Then(history[j], WriteReturns(op))];
      Written(j);
    }

    method SetPhase(j: nat, op: nat, phase: Queue.Phase)
      requires Coherent() && j in jobs && op < |frames[j].writes|
      modifies this`frames
      ensures Coherent() && OthersKept(j)
      ensures var q := old(View(j)).queue;
        View(j) == old(View(j)).(queue := q.(ops := q.ops[op := q.ops[op].(phase := phase)]))
    {
      hide ActiveOf;
      frames := frames[j := frames[j].(writes := frames[j].writes[op := frames[j].writes[op].(phase := phase)])];
    }

    // rename(temporary, target): the directory changes.
    method LandWrite(j: nat, op: nat)
      requires Coherent() && j in jobs && op < |frames[j].writes| && frames[j].writes[op].phase.Renaming?
      modifies this`jobs, this`frames, this`persistQueues, this`activeRuns, this`files
      ensures Coherent() && OthersKept(j) && j in jobs
      ensures View(j) == old(View(j)).(queue := Queue.Advance(old(View(j)).queue, op, true))
    {
      hide ActiveOf;
      files := files[j := frames[j].writes[op].snapshot];
      SetFrames(j, frames[j].(landings := frames[j].landings + [op]));
      SetPhase(j, op, Queue.Landed);
    }

    method MoveWrite(j: nat, op: nat, ok: bool)
      requires Coherent() && j in jobs
      modifies this`jobs, this`frames, this`persistQueues, this`activeRuns, this`files
      ensures Coherent() && OthersKept(j) && j in jobs
      ensures View(j) == old(View(j)).(queue := Queue.Advance(old(View(j)).queue, op, ok))
    {
      hide ActiveOf;
      hide Queue.MayStart;
      if op < |frames[j].writes| {
        match frames[j].writes[op].phase {
          case Waiting => if Queue.MayStart(View(j).queue, op) { SetPhase(j, op, Queue.Writing); }
          case Writing => SetPhase(j, op, if ok then Queue.Renaming else Queue.Broken);
          case Renaming => if ok { LandWrite(j, op); } else { SetPhase(j, op, Queue.Broken); }
          case Landed =>
          case Broken =>
        }
      }
    }

    // The file system takes write `op` one step further (runtime.mjs 322-326).
    method DiskWrites(j: nat, op: nat, ok: bool)
      requires Valid() && j in jobs
      modifies this
      ensures Valid() && OthersKept(j) && j in jobs
      ensures View(j) == Next(old(View(j)), DiskWrite(op, ok))
      ensures history == old(history)[j := Then(old(history)[j], DiskWrite(op, ok))]
    {
      hide Valid;
      Follows(j, DiskWrite(op, ok));
      hide Replay;
      hide Then;
      hide ActiveOf;
      hide Queue.Advance;
      MoveWrite(j, op, ok);
      history := history[j := Then(history[j], DiskWrite(op, ok))];
      Written(j);
    }

    method SubmitReturned(j: nat)
      requires Valid() && j in jobs
      modifies this
      ensures Valid() && OthersKept(j) && j in jobs
      ensures View(j) == Next(old(View(j)), SubmitResumes)
      ensures history == old(history)[j := Then(old(history)[j], SubmitResumes)]
    {
      hide Valid;
      Follows(j, SubmitResumes);
      hide Replay;
      hide Then;
      hide ActiveOf;
      var f := frames[j];
      if f.executor.Submitting? && Back(View(j), f.executor.op) {
        if Saved(View(j), f.executor.op) {
          SetFrames(j, f.(executor := Pooling, pool := Pool.Start(|jobs[j].runs|, f.limit)));
        } else {
          SetFrames(j, f.(executor := SubmitFailed));
        }
      }
      history := history[j := Then(history[j], SubmitResumes)];
      Written(j);
    }

    // The head of the worker's loop: take the shared counter, or leave.
    method ClaimNext(j: nat, w: nat, enabled: bool)
      requires Coherent() && j in jobs && w < |frames[j].pool.workers|
      modifies this`jobs, this`frames, this`persistQueues, this`activeRuns, this`files
      ensures Coherent() && OthersKept(j) && j in jobs
      ensures View(j) == Claim(old(View(j)).(pool := Pool.Loop(old(View(j)).pool, w)), old(View(j)).pool.next, enabled)
    {
      hide ActiveOf;
      hide Begin;
      var f := frames[j];
      var pool := f.pool;
      if pool.next < pool.items {
        var index := pool.next;
        pool := pool.(next := pool.next + 1, workers := pool.workers[w := Pool.Busy(index)],
          claims := pool.claims + [index]);
        SetFrames(j, f.(pool := pool));
        if index < |jobs[j].runs| && index < |f.tasks| {
          BeginRun(j, index, enabled);
        }
      } else {
        SetFrames(j, f.(pool := pool.(workers := pool.workers[w := Pool.Retired])));
      }
    }

    method TaskFulfilled(j: nat, w: nat, item: nat, enabled: bool)
      requires Coherent() && j in jobs && w < |frames[j].pool.workers|
      modifies this`jobs, this`frames, this`persistQueues, this`activeRuns, this`files
      ensures Coherent() && OthersKept(j) && j in jobs
      ensures var s := old(View(j)); var pool := s.pool.(done := s.pool.done + {item});
        View(j) == Claim(s.(pool := Pool.Loop(pool, w)), pool.next, enabled)
    {
      hide ActiveOf;
      hide Claim;
      hide Pool.Loop;
      var f := frames[j];
      SetFrames(j, f.(pool := f.pool.(done := f.pool.done + {item})));
      ClaimNext(j, w, enabled);
    }

    method ResumeWorker(j: nat, w: nat, enabled: bool)
      requires Coherent() && j in jobs
      modifies this`jobs, this`frames, this`persistQueues, this`activeRuns, this`files
      ensures Coherent() && OthersKept(j) && j in jobs
      ensures View(j) == StepWorker(old(View(j)), w, enabled)
    {
      hide ActiveOf;
      hide Claim;
      hide Pool.Loop;
      var f := frames[j];
      if w < |f.pool.workers| {
        match f.pool.workers[w] {
          case Ready => ClaimNext(j, w, enabled);
          case Busy(item) =>
            if item < |f.tasks| {
              if f.tasks[item].pc.Done? {
                TaskFulfilled(j, w, item, enabled);
              } else if f.tasks[item].pc.Threw? {
                SetFrames(j, f.(pool := f.pool.(workers := f.pool.workers[w := Pool.Rejected(item)])));
              }
            }
          case Retired =>
          case Rejected(_) =>
        }
      }
    }

    // A worker of mapLimit resumes: finish the awaited task, then claim the next index.
    method WorkerResumed(j: nat, w: nat, enabled: bool)
      requires Valid() && j in jobs
      modifies this
      ensures Valid() && OthersKept(j) && j in jobs
      ensures View(j) == Next(old(View(j)), WorkerResumes(w, enabled))
      ensures history == old(history)[j := Then(old(history)[j], WorkerResumes(w, enabled))]
    {
      hide Valid;
      Follows(j, WorkerResumes(w, enabled));
      hide Replay;
      hide Then;
      hide ActiveOf;
      hide StepWorker;
      ResumeWorker(j, w, enabled);
      history := history[j := Then(history[j], WorkerResumes(w, enabled))];
      Written(j);
    }

    method SettleVerdict(j: nat)
      requires Coherent() && j in jobs
      modifies this`jobs, this`frames, this`persistQueues, this`activeRuns, this`files
      ensures Coherent() && OthersKept(j) && j in jobs
      ensures View(j) == (if old(View(j)).executor.Pooling? then SettlePool(old(View(j))) else old(View(j)))
    {
      hide ActiveOf;
      hide CommitFailure;
      hide Verdict;
      hide Pool.Rejects;
      hide Pool.Resolves;
      if frames[j].executor.Pooling? {
        if Pool.Rejects(frames[j].pool) {
          BeginFailureCommit(j);
        } else if Pool.Resolves(frames[j].pool) {
          var verdict := Verdict(jobs[j]);
          var ticket := Enqueue(j, jobs[j].(status := verdict));
          SetFrames(j, frames[j].(executor := Committing(ticket, verdict)));
        }
      }
    }

    method PoolSettled(j: nat)
      requires Valid() && j in jobs
      modifies this
      ensures Valid() && OthersKept(j) && j in jobs
      ensures View(j) == Next(old(View(j)), PoolSettles)
      ensures history == old(history)[j := Then(old(history)[j], PoolSettles)]
    {
      hide Valid;
      Follows(j, PoolSettles);
      hide Replay;
      hide Then;
      hide ActiveOf;
      hide SettlePool;
      SettleVerdict(j);
      history := history[j := Then(history[j], PoolSettles)];
      Written(j);
    }

    method BeginFailureCommit(j: nat)
      requires Coherent() && j in jobs
      modifies this`frames, this`persistQueues
      ensures Coherent() && OthersKept(j)
      ensures View(j) == CommitFailure(old(View(j)))
    {
      hide ActiveOf;
      var ticket := Enqueue(j, jobs[j].(status := FAILED_JOB, error := true));
      SetFrames(j, frames[j].(executor := CommittingFailure(ticket)));
    }

    method PublishFailure(j: nat, op: nat)
      requires Coherent() && j in jobs && frames[j].executor == CommittingFailure(op) && Back(View(j), op)
      modifies this`jobs, this`frames, this`persistQueues, this`activeRuns, this`files
      ensures Coherent() && OthersKept(j) && j in jobs
      ensures View(j) == AfterCommit(old(View(j)))
    {
      hide ActiveOf;
      var saved := Saved(View(j), op);
      SetFrames(j, frames[j].(executor := if saved then FailurePublished(op) else FailureUnsaved));
      var unsaved := !saved || jobs[j].persistenceError;
      jobs := jobs[j := jobs[j].(status := FAILED_JOB, error := true, persistenceError := unsaved)];
    }

    // The verdict reaches the live job.
    method Publish(j: nat, op: nat, verdict: Status)
      requires Coherent() && j in jobs
      modifies this`jobs, this`frames, this`persistQueues, this`activeRuns, this`files
      ensures Coherent() && OthersKept(j) && j in jobs
      ensures var s := old(View(j));
        View(j) == s.(job := s.job.(status := verdict), executor := Published(op, verdict, |s.queue.ops|))
    {
      hide ActiveOf;
      var f := frames[j];
      jobs := jobs[j := jobs[j].(status := verdict)];
      SetFrames(j, f.(executor := Published(op, verdict, |f.writes|)));
    }

    method Commit(j: nat)
      requires Coherent() && j in jobs
      modifies this`jobs, this`frames, this`persistQueues, this`activeRuns, this`files
      ensures Coherent() && OthersKept(j) && j in jobs
      ensures View(j) == AfterCommit(old(View(j)))
    {
      hide ActiveOf;
      hide CommitFailure;
      var f := frames[j];
      match f.executor {
        case Committing(op, verdict) =>
          if Back(View(j), op) {
            if Saved(View(j), op) {
              Publish(j, op, verdict);
            } else {
              BeginFailureCommit(j);
            }
          }
        case CommittingFailure(op) =>
          if Back(View(j), op) { PublishFailure(j, op); }
        case _ =>
      }
    }

    // #commitDurableState after its await (runtime.mjs 312-316, 114-118).
    method CommitReturned(j: nat)
      requires Valid() && j in jobs
      modifies this
      ensures Valid() && OthersKept(j) && j in jobs
      ensures View(j) == Next(old(View(j)), CommitReturns)
      ensures history == old(history)[j := Then(old(history)[j], CommitReturns)]
    {
      hide Valid;
      Follows(j, CommitReturns);
      hide Replay;
      hide Then;
      hide ActiveOf;
      hide AfterCommit;
      Commit(j);
      history := history[j := Then(history[j], CommitReturns)];
      Written(j);
    }

    // ----- #executeRun -----

    method FailRun(j: nat, i: nat, code: ErrorCode) returns (ticket: nat)
      requires Coherent() && j in jobs && i < |jobs[j].runs|
      modifies this`jobs, this`frames, this`persistQueues, this`activeRuns, this`files
      ensures Coherent() && OthersKept(j) && j in jobs
      ensures ticket == Ticket(old(View(j)))
      ensures var s := old(View(j));
        View(j) == GatewayModel.Persist(GatewayModel.SetRun(s, i, Failed(s.job.runs[i], code)))
    {
      hide ActiveOf;
      SetRun(j, i, jobs[j].runs[i].(state := FAILED, error := Some(code)));
      ticket := Persist(j);
    }

    // A disabled or unhealthy adapter (runtime.mjs 204-210).
    method RefuseRun(j: nat, i: nat)
      requires Coherent() && j in jobs && i < |jobs[j].runs| && i < |frames[j].tasks|
      modifies this`jobs, this`frames, this`persistQueues, this`activeRuns, this`files
      ensures Coherent() && OthersKept(j) && j in jobs
      ensures View(j) == FailEarly(old(View(j)), i, AdapterUnhealthy)
    {
      hide ActiveOf;
      var ticket := FailRun(j, i, AdapterUnhealthy);
      SetPc(j, i, AwaitFailPersist(ticket));
    }

    // A healthy adapter (runtime.mjs 212-214).
    method StartRun(j: nat, i: nat)
      requires Coherent() && j in jobs && i < |jobs[j].runs| && i < |frames[j].tasks|
      modifies this`jobs, this`frames, this`persistQueues, this`activeRuns, this`files
      ensures Coherent() && OthersKept(j) && j in jobs
      ensures View(j) == AfterHealth(old(View(j)), i, Healthy)
    {
      hide ActiveOf;
      SetRun(j, i, jobs[j].runs[i].(state := STARTING));
      var ticket := Persist(j);
      SetPc(j, i, AwaitStartingPersist(ticket));
    }

    method BeginRun(j: nat, i: nat, enabled: bool)
      requires Coherent() && j in jobs && i < |jobs[j].runs| && i < |frames[j].tasks|
      modifies this`jobs, this`frames, this`persistQueues, this`activeRuns, this`files
      ensures Coherent() && OthersKept(j) && j in jobs
      ensures View(j) == Begin(old(View(j)), i, enabled)
    {
      hide ActiveOf;
      if jobs[j].cancelRequested {
        SetRun(j, i, jobs[j].runs[i].(state := CANCELLED));
        var ticket := Persist(j);
        SetPc(j, i, AwaitCancelPersist(ticket));
      } else if !enabled {
        RefuseRun(j, i);
      } else {
        var task := frames[j].tasks[i];
        SetTask(j, i, task.(pc := AwaitHealth, healthChecks := task.healthChecks + 1));
      }
    }

    method ResumeHealth(j: nat, i: nat, health: Health)
      requires Coherent() && j in jobs
      modifies this`jobs, this`frames, this`persistQueues, this`activeRuns, this`files
      ensures Coherent() && OthersKept(j) && j in jobs
      ensures var s := old(View(j)); View(j) == (if Awaits(s, i, AwaitHealth) then AfterHealth(s, i, health) else s)
    {
      hide ActiveOf;
      hide FailEarly;
      if Awaits(View(j), i, AwaitHealth) {
        match health {
          case HealthThrows => SetPc(j, i, Threw);
          case Unhealthy => RefuseRun(j, i);
          case Healthy => StartRun(j, i);
        }
      }
    }

    method HealthReturned(j: nat, i: nat, health: Health)
      requires Valid() && j in jobs
      modifies this
      ensures Valid() && OthersKept(j) && j in jobs
      ensures View(j) == Next(old(View(j)), HealthReturns(i, health))
      ensures history == old(history)[j := Then(old(history)[j], HealthReturns(i, health))]
    {
      hide Valid;
      Follows(j, HealthReturns(i, health));
      hide AfterHealth;
      hide Replay;
      hide Then;
      hide ActiveOf;
      ResumeHealth(j, i, health);
      history := history[j := Then(history[j], HealthReturns(i, health))];
      Written(j);
    }

    // The session exists: RUNNING, into activeRuns, snapshot (runtime.mjs 239-243).
    method OpenSession(j: nat, i: nat)
      requires Coherent() && j in jobs && i < |jobs[j].runs| && i < |frames[j].tasks|
      modifies this`jobs, this`frames, this`persistQueues, this`activeRuns, this`files
      ensures Coherent() && OthersKept(j) && j in jobs
      ensures View(j) == AfterSession(old(View(j)), i, true)
    {
      hide ActiveOf;
      SetRun(j, i, jobs[j].runs[i].(state := RUNNING));
      Activate(j, i);
      var ticket := Persist(j);
      SetTask(j, i, frames[j].tasks[i].(session := Some(Session(0, 0, 0, false)), pc := AwaitRunningPersist(ticket)));
    }

    method ResumeSession(j: nat, i: nat, ok: bool)
      requires Coherent() && j in jobs
      modifies this`jobs, this`frames, this`persistQueues, this`activeRuns, this`files
      ensures Coherent() && OthersKept(j) && j in jobs
      ensures var s := old(View(j)); View(j) == (if Awaits(s, i, AwaitCreateSession) then AfterSession(s, i, ok) else s)
    {
      hide ActiveOf;
      hide Catch;
      if Awaits(View(j), i, AwaitCreateSession) {
        if ok { OpenSession(j, i); } else { CatchBlock(j, i, FromAdapter); }
      }
    }

    method SessionReturned(j: nat, i: nat, ok: bool)
      requires Valid() && j in jobs
      modifies this
      ensures Valid() && OthersKept(j) && j in jobs
      ensures View(j) == Next(old(View(j)), SessionReturns(i, ok))
      ensures history == old(history)[j := Then(old(history)[j], SessionReturns(i, ok))]
    {
      hide Valid;
      Follows(j, SessionReturns(i, ok));
      hide Replay;
      hide Then;
      hide ActiveOf;
      hide AfterSession;
      ResumeSession(j, i, ok);
      history := history[j := Then(history[j], SessionReturns(i, ok))];
      Written(j);
    }

    method CatchBlock(j: nat, i: nat, code: ErrorCode)
      requires Coherent() && j in jobs && i < |jobs[j].runs| && i < |frames[j].tasks|
      modifies this`jobs, this`frames, this`persistQueues, this`activeRuns, this`files
      ensures Coherent() && OthersKept(j) && j in jobs
      ensures View(j) == Catch(old(View(j)), i, code)
    {
      hide ActiveOf;
      var ticket := FailRun(j, i, code);
      SetPc(j, i, AwaitCatchPersist(ticket));
    }

    method LastPersist(j: nat, i: nat, rethrow: bool)
      requires Coherent() && j in jobs && i < |jobs[j].runs| && i < |frames[j].tasks|
      modifies this`jobs, this`frames, this`persistQueues, this`activeRuns, this`files
      ensures Coherent() && OthersKept(j) && j in jobs
      ensures View(j) == FinalPersist(old(View(j)), i, rethrow)
    {
      hide ActiveOf;
      var ticket := Persist(j);
      SetPc(j, i, AwaitFinalPersist(ticket, rethrow));
    }

    // Leave activeRuns first, then close the session, if there is one.
    method FinallyBlock(j: nat, i: nat, rethrow: bool)
      requires Coherent() && j in jobs && i < |jobs[j].runs| && i < |frames[j].tasks|
      modifies this`jobs, this`frames, this`persistQueues, this`activeRuns, this`files
      ensures Coherent() && OthersKept(j) && j in jobs
      ensures View(j) == Finally(old(View(j)), i, rethrow)
    {
      hide ActiveOf;
      var task := frames[j].tasks[i];
      Deactivate(j, i);
      if task.session.Some? {
        var session := task.session.value;
        SetTask(j, i, task.(session := Some(session.(closes := session.closes + 1)), pc := AwaitClose(rethrow)));
      } else {
        LastPersist(j, i, rethrow);
      }
    }

    method RecordEvent(j: nat, i: nat, e: Events.EventType)
      requires Coherent() && j in jobs && i < |jobs[j].runs| && i < |frames[j].tasks|
      modifies this`jobs, this`frames, this`persistQueues, this`activeRuns, this`files
      ensures Coherent() && OthersKept(j) && j in jobs
      ensures View(j) == AfterStream(old(View(j)), i, Yields(e))
    {
      hide ActiveOf;
      var run := jobs[j].runs[i].(events := jobs[j].runs[i].events + [e]);
      if TerminalToState(e).Some? {
        run := run.(state := TerminalToState(e).value);
      }
      SetRun(j, i, run);
      var ticket := Persist(j);
      SetPc(j, i, AwaitEventPersist(ticket));
    }

    method ResumeStream(j: nat, i: nat, step: StreamStep)
      requires Coherent() && j in jobs
      modifies this`jobs, this`frames, this`persistQueues, this`activeRuns, this`files
      ensures Coherent() && OthersKept(j) && j in jobs
      ensures var s := old(View(j)); View(j) == (if Awaits(s, i, AwaitNext) then AfterStream(s, i, step) else s)
    {
      hide ActiveOf;
      hide Catch;
      if Awaits(View(j), i, AwaitNext) {
        match step {
          case Yields(e) => RecordEvent(j, i, e);
          case Ends => SetPc(j, i, AwaitArtifacts);
          case Throws => CatchBlock(j, i, FromAdapter);
        }
      }
    }

    method StreamReturned(j: nat, i: nat, step: StreamStep)
      requires Valid() && j in jobs
      modifies this
      ensures Valid() && OthersKept(j) && j in jobs
      ensures View(j) == Next(old(View(j)), StreamReturns(i, step))
      ensures history == old(history)[j := Then(old(history)[j], StreamReturns(i, step))]
    {
      hide Valid;
      Follows(j, StreamReturns(i, step));
      hide Replay;
      hide Then;
      hide ActiveOf;
      hide AfterStream;
      ResumeStream(j, i, step);
      history := history[j := Then(history[j], StreamReturns(i, step))];
      Written(j);
    }

    method ResumeIterator(j: nat, i: nat)
      requires Coherent() && j in jobs
      modifies this`jobs, this`frames, this`persistQueues, this`activeRuns, this`files
      ensures Coherent() && OthersKept(j) && j in jobs
      ensures var s := old(View(j)); View(j) == (if Awaits(s, i, AwaitReturn) then Catch(s, i, FromDisk) else s)
    {
      hide ActiveOf;
      hide Catch;
      if Awaits(View(j), i, AwaitReturn) {
        CatchBlock(j, i, FromDisk);
      }
    }

    method IteratorReturned(j: nat, i: nat)
      requires Valid() && j in jobs
      modifies this
      ensures Valid() && OthersKept(j) && j in jobs
      ensures View(j) == Next(old(View(j)), IteratorReturns(i))
      ensures history == old(history)[j := Then(old(history)[j], IteratorReturns(i))]
    {
      hide Valid;
      Follows(j, IteratorReturns(i));
      hide Catch;
      hide Replay;
      hide Then;
      hide ActiveOf;
      ResumeIterator(j, i);
      history := history[j := Then(history[j], IteratorReturns(i))];
      Written(j);
    }

    method KeepArtifact(j: nat, i: nat, id: nat)
      requires Coherent() && j in jobs && i < |jobs[j].runs|
      modifies this`jobs, this`frames, this`persistQueues, this`activeRuns, this`files
      ensures Coherent() && OthersKept(j) && j in jobs
      ensures View(j) == GatewayModel.SetRun(old(View(j)), i, Collect(old(View(j)).job.runs[i], id))
    {
      hide ActiveOf;
      var run := jobs[j].runs[i];
      if id !in run.artifacts {
        run := run.(artifacts := run.artifacts + [id]);
      }
      SetRun(j, i, run);
    }

    method ResumeArtifacts(j: nat, i: nat, artifact: ArtifactStep)
      requires Coherent() && j in jobs
      modifies this`jobs, this`frames, this`persistQueues, this`activeRuns, this`files
      ensures Coherent() && OthersKept(j) && j in jobs
      ensures var s := old(View(j));
        View(j) == (if Awaits(s, i, AwaitArtifacts) then AfterArtifact(s, i, artifact) else s)
    {
      hide ActiveOf;
      hide Catch;
      hide Finally;
      hide EndsOpen;
      if Awaits(View(j), i, AwaitArtifacts) {
        match artifact {
          case Artifact(id) => KeepArtifact(j, i, id);
          case CollectThrows => CatchBlock(j, i, FromAdapter);
          case NoMore =>
            if EndsOpen(jobs[j].runs[i]) {
              CatchBlock(j, i, ProtocolMismatch);
            } else {
              FinallyBlock(j, i, false);
            }
        }
      }
    }

    method ArtifactReturned(j: nat, i: nat, artifact: ArtifactStep)
      requires Valid() && j in jobs
      modifies this
      ensures Valid() && OthersKept(j) && j in jobs
      ensures View(j) == Next(old(View(j)), ArtifactReturns(i, artifact))
      ensures history == old(history)[j := Then(old(history)[j], ArtifactReturns(i, artifact))]
    {
      hide Valid;
      Follows(j, ArtifactReturns(i, artifact));
      hide Replay;
      hide Then;
      hide ActiveOf;
      hide AfterArtifact;
      ResumeArtifacts(j, i, artifact);
      history := history[j := Then(history[j], ArtifactReturns(i, artifact))];
      Written(j);
    }

    method CloseReturned(j: nat, i: nat)
      requires Valid() && j in jobs
      modifies this
      ensures Valid() && OthersKept(j) && j in jobs
      ensures View(j) == Next(old(View(j)), CloseReturns(i))
      ensures history == old(history)[j := Then(old(history)[j], CloseReturns(i))]
    {
      hide Valid;
      Follows(j, CloseReturns(i));
      hide Replay;
      hide Then;
      hide ActiveOf;
      if i < |jobs[j].runs| && i < |frames[j].tasks| && frames[j].tasks[i].pc.AwaitClose? {
        LastPersist(j, i, frames[j].tasks[i].pc.rethrow);
      }
      history := history[j := Then(history[j], CloseReturns(i))];
      Written(j);
    }

    // startRun is called (runtime.mjs 245).
    method BeginStream(j: nat, i: nat)
      requires Coherent() && j in jobs && i < |jobs[j].runs| && i < |frames[j].tasks|
      modifies this`jobs, this`frames, this`persistQueues, this`activeRuns, this`files
      ensures Coherent() && OthersKept(j) && j in jobs
      ensures View(j) == StartStream(old(View(j)), i)
    {
      hide ActiveOf;
      var task := frames[j].tasks[i];
      if task.session.Some? {
        var session := task.session.value;
        SetTask(j, i, task.(session := Some(session.(starts := session.starts + 1)), pc := AwaitNext));
      }
    }

    // The write the frame of run `i` awaits came back: go on after the await, or throw.
    method ResumeRun(j: nat, i: nat)
      requires Coherent() && j in jobs && i < |jobs[j].runs| && i < |frames[j].tasks|
      modifies this`jobs, this`frames, this`persistQueues, this`activeRuns, this`files
      ensures Coherent() && OthersKept(j) && j in jobs
      ensures View(j) == AfterPersist(old(View(j)), i)
    {
      hide ActiveOf;
      hide StartStream;
      hide Catch;
      hide Finally;
      hide GatewayModel.SetPc;
      var s := View(j);
      if InRange(s, i) && AwaitedOp(s.tasks[i].pc).Some? {
        var op := AwaitedOp(s.tasks[i].pc).value;
        if Back(s, op) {
          var saved := Saved(s, op);
          match s.tasks[i].pc {
            case AwaitCancelPersist(_) => SetPc(j, i, if saved then Done else Threw);
            case AwaitFailPersist(_) => SetPc(j, i, if saved then Done else Threw);
            case AwaitStartingPersist(_) => SetPc(j, i, if saved then AwaitCreateSession else Threw);
            case AwaitRunningPersist(_) => if saved { BeginStream(j, i); } else { CatchBlock(j, i, FromDisk); }
            case AwaitEventPersist(_) => SetPc(j, i, if saved then AwaitNext else AwaitReturn);
            case AwaitCatchPersist(_) => FinallyBlock(j, i, !saved);
            case AwaitFinalPersist(_, rethrow) => SetPc(j, i, if rethrow || !saved then Threw else Done);
            case _ =>
          }
        }
      }
    }

    method PersistReturned(j: nat, i: nat)
      requires Valid() && j in jobs
      modifies this
      ensures Valid() && OthersKept(j) && j in jobs
      ensures View(j) == Next(old(View(j)), PersistReturns(i))
      ensures history == old(history)[j := Then(old(history)[j], PersistReturns(i))]
    {
      hide Valid;
      Follows(j, PersistReturns(i));
      hide Replay;
      hide Then;
      hide ActiveOf;
      hide AfterPersist;
      if i < |jobs[j].runs| && i < |frames[j].tasks| {
        ResumeRun(j, i);
      }
      history := history[j := Then(history[j], PersistReturns(i))];
      Written(j);
    }

    // ----- cancelJob and cancelRun -----

    // adapter.cancel on the session of an active run.
    method CancelSession(j: nat, i: nat)
      requires Coherent() && j in jobs && i < |frames[j].tasks|
      modifies this`frames
      ensures Coherent() && OthersKept(j)
      ensures View(j) == CallAdapterCancel(old(View(j)), i)
    {
      hide ActiveOf;
      var task := frames[j].tasks[i];
      if task.session.Some? {
        var session := task.session.value;
        var late := session.lateCancel || session.closes > 0;
        SetTask(j, i, task.(session := Some(session.(cancels := session.cancels + 1, lateCancel := late))));
      }
    }

    // The loop of cancelJob from run `from` up to the run whose adapter must answer.
    method SweepLoop(j: nat, from: nat) returns (runs: seq<Run>, stop: nat)
      requires Coherent() && j in jobs
      ensures stop == SweepStop(jobs[j].runs, ActiveOf(activeRuns, j), from)
      ensures runs == SweepRuns(jobs[j].runs, from, stop)
    {
      runs := jobs[j].runs;
      if from >= |runs| {
        assert runs == SweepRuns(runs, from, |runs|);
        return runs, |runs|;
      }
      stop := from;
      while stop < |runs| && (Terminal(runs[stop].state) || RunId(j, stop) !in activeRuns)
        invariant |runs| == |jobs[j].runs| && from <= stop <= |runs|
        invariant runs == SweepRuns(jobs[j].runs, from, stop)
        invariant SweepStop(jobs[j].runs, ActiveOf(activeRuns, j), from) ==
          SweepStop(jobs[j].runs, ActiveOf(activeRuns, j), stop)
        decreases |runs| - stop
      {
        ActiveJoins(activeRuns, j, stop);
        if !Terminal(runs[stop].state) {
          runs := runs[stop := runs[stop].(state := CANCELLED)];
        }
        stop := stop + 1;
      }
      if stop < |runs| {
        ActiveJoins(activeRuns, j, stop);
      }
    }

    // cancelJob between two awaits: sweep, then call the adapter or write the snapshot.
    method SweepRunsFrom(j: nat, from: nat) returns (frame: Cancel)
      requires Coherent() && j in jobs
      modifies this`jobs, this`frames, this`persistQueues, this`activeRuns, this`files
      ensures Coherent() && OthersKept(j) && j in jobs
      ensures (View(j), frame) == Sweep(old(View(j)), from)
      ensures frames[j].cancels == old(frames[j].cancels)
    {
      hide ActiveOf;
      hide SweepRuns;
      hide SweepStop;
      var n := |jobs[j].runs|;
      var runs, stop := SweepLoop(j, from);
      jobs := jobs[j := jobs[j].(runs := runs)];
      if stop < n && stop < |frames[j].tasks| {
        CancelSession(j, stop);
        frame := JobAwaitAdapter(stop);
      } else {
        var ticket := Persist(j);
        frame := JobAwaitPersist(ticket);
      }
    }

    method SweepAll(j: nat)
      requires Coherent() && j in jobs
      modifies this`jobs, this`frames, this`persistQueues, this`activeRuns, this`files
      ensures Coherent() && OthersKept(j) && j in jobs
      ensures View(j) == StartCancelJob(old(View(j)))
    {
      hide ActiveOf;
      hide Sweep;
      jobs := jobs[j := jobs[j].(cancelRequested := true)];
      var frame := SweepRunsFrom(j, 0);
      SetFrames(j, frames[j].(cancels := frames[j].cancels + [frame]));
    }

    method StartCancellingJob(j: nat)
      requires Valid() && j in jobs
      modifies this
      ensures Valid() && OthersKept(j) && j in jobs
      ensures View(j) == Next(old(View(j)), CancelJob)
      ensures history == old(history)[j := Then(old(history)[j], CancelJob)]
    {
      hide Valid;
      Follows(j, CancelJob);
      hide Replay;
      hide Then;
      hide ActiveOf;
      hide Sweep;
      SweepAll(j);
      history := history[j := Then(history[j], CancelJob)];
      Written(j);
    }

    method FlagRun(j: nat, i: nat)
      requires Coherent() && j in jobs
      modifies this`jobs, this`frames, this`persistQueues, this`activeRuns, this`files
      ensures Coherent() && OthersKept(j) && j in jobs
      ensures View(j) == StartCancelRun(old(View(j)), i)
    {
      hide ActiveOf;
      hide CallAdapterCancel;
      hide GatewayModel.SetRun;
      ActiveJoins(activeRuns, j, i);
      if RunId(j, i) in activeRuns && i < |jobs[j].runs| && i < |frames[j].tasks| {
        SetRun(j, i, jobs[j].runs[i].(cancelRequested := true));
        CancelSession(j, i);
        SetFrames(j, frames[j].(cancels := frames[j].cancels + [RunAwaitAdapter(i)]));
      }
    }

    method StartCancellingRun(j: nat, i: nat)
      requires Valid() && j in jobs
      modifies this
      ensures Valid() && OthersKept(j) && j in jobs
      ensures View(j) == Next(old(View(j)), CancelRun(i))
      ensures history == old(history)[j := Then(old(history)[j], CancelRun(i))]
    {
      hide Valid;
      Follows(j, CancelRun(i));
      hide Replay;
      hide Then;
      hide ActiveOf;
      hide StartCancelRun;
      FlagRun(j, i);
      history := history[j := Then(history[j], CancelRun(i))];
      Written(j);
    }

    method SetCancel(j: nat, c: nat, frame: Cancel)
      requires Coherent() && j in jobs && c < |frames[j].cancels|
      modifies this`frames
      ensures Coherent() && OthersKept(j)
      ensures View(j) == old(View(j)).(cancels := old(View(j)).cancels[c := frame])
    {
      hide ActiveOf;
      SetFrames(j, frames[j].(cancels := frames[j].cancels[c := frame]));
    }

    method SweepOn(j: nat, c: nat, i: nat, threw: bool)
      requires Coherent() && j in jobs && c < |frames[j].cancels| && frames[j].cancels[c] == JobAwaitAdapter(i)
        && i < |jobs[j].runs|
      modifies this`jobs, this`frames, this`persistQueues, this`activeRuns, this`files
      ensures Coherent() && OthersKept(j) && j in jobs
      ensures View(j) == ResumeSweep(old(View(j)), c, i, threw)
    {
      hide ActiveOf;
      hide Sweep;
      if threw { SetRun(j, i, jobs[j].runs[i].(cancelError := true)); }
      var frame := SweepRunsFrom(j, i + 1);
      SetCancel(j, c, frame);
    }

    // The adapter answered a cancelRun: save the run's flag (runtime.mjs 164).
    method PersistCancelled(j: nat, c: nat)
      requires Coherent() && j in jobs && c < |frames[j].cancels|
      modifies this`jobs, this`frames, this`persistQueues, this`activeRuns, this`files
      ensures Coherent() && OthersKept(j) && j in jobs
      ensures var s := old(View(j));
        View(j) == GatewayModel.Persist(s.(cancels := s.cancels[c := RunAwaitPersist(Ticket(s))]))
    {
      hide ActiveOf;
      SetCancel(j, c, RunAwaitPersist(|frames[j].writes|));
      var ticket := Persist(j);
    }

    method ResumeCanceller(j: nat, c: nat, threw: bool)
      requires Coherent() && j in jobs
      modifies this`jobs, this`frames, this`persistQueues, this`activeRuns, this`files
      ensures Coherent() && OthersKept(j) && j in jobs
      ensures View(j) == AfterCancel(old(View(j)), c, threw)
    {
      hide ActiveOf;
      hide ResumeSweep;
      hide Queue.Enqueue;
      if c < |frames[j].cancels| {
        match frames[j].cancels[c] {
          case JobAwaitAdapter(i) =>
            if i < |jobs[j].runs| { SweepOn(j, c, i, threw); }
          case JobAwaitPersist(op) => if Back(View(j), op) { SetCancel(j, c, CancelReturned); }
          case RunAwaitAdapter(_) =>
            if threw {
              SetCancel(j, c, CancelReturned);
            } else {
              PersistCancelled(j, c);
            }
          case RunAwaitPersist(op) => if Back(View(j), op) { SetCancel(j, c, CancelReturned); }
          case CancelReturned =>
        }
      }
    }

    method CancelAnswered(j: nat, c: nat, threw: bool)
      requires Valid() && j in jobs
      modifies this
      ensures Valid() && OthersKept(j) && j in jobs
      ensures View(j) == Next(old(View(j)), CancelReturns(c, threw))
      ensures history == old(history)[j := Then(old(history)[j], CancelReturns(c, threw))]
    {
      hide Valid;
      Follows(j, CancelReturns(c, threw));
      hide Replay;
      hide Then;
      hide ActiveOf;
      hide AfterCancel;
      ResumeCanceller(j, c, threw);
      history := history[j := Then(history[j], CancelReturns(c, threw))];
      Written(j);
    }

    // ----- A new process -----

    // A saved job enters the map with every frame gone.
    method RegisterLoaded(id: nat, limit: int, job: Job)
      requires Coherent() && id in files && id !in persistQueues && forall r :: r in activeRuns ==> r.job != id
      modifies this`jobs, this`frames
      ensures Coherent() && OthersKept(id) && jobs.Keys == old(jobs.Keys) + {id}
      ensures View(id) == Sys(limit, job, {}, seq(|job.runs|, _ => Task(Done, 0, None)), Pool.Start(0, 0), Reloaded, [],
                              Queue.Empty(Some(files[id])))
    {
      jobs := jobs[id := job];
      var tasks := seq(|job.runs|, _ => Task(Done, 0, None));
      frames := frames[id := Frames(limit, tasks, Pool.Start(0, 0), Reloaded, [], [], [])];
      NoneActive(activeRuns, id);
      hide ActiveOf;
    }

    // Load one saved job, repair it and write the repair back.
    method LoadJob(id: nat, limit: int)
      requires Coherent() && id in files && id !in persistQueues && forall r :: r in activeRuns ==> r.job != id
      modifies this`jobs, this`frames, this`persistQueues, this`activeRuns, this`files
      ensures Coherent() && files == old(files) && activeRuns == old(activeRuns)
      ensures OthersKept(id) && jobs.Keys == old(jobs.Keys) + {id}
        && persistQueues.Keys <= old(persistQueues.Keys) + {id}
      ensures View(id) == FreshView(limit, files[id])
    {
      hide ActiveOf;
      hide Repair;
      hide NeedsRepair;
      var repaired, recovered := Recovery.RepairJob(files[id]);
      RegisterLoaded(id, limit, repaired);
      if recovered {
        var ticket := Persist(id);
      }
    }

    // A new process: empty maps, then the saved jobs one by one.
    method LoadAll(ids: seq<nat>)
      requires Coherent() && (forall id :: id in ids <==> id in files) && files.Keys <= jobs.Keys
      requires forall a, b :: 0 <= a < b < |ids| ==> ids[a] != ids[b]
      modifies this`jobs, this`frames, this`persistQueues, this`activeRuns, this`files
      ensures Coherent() && files == old(files) && jobs.Keys == files.Keys
      ensures forall j :: j in jobs ==> View(j) == FreshView(old(frames)[j].limit, files[j])
    {
      hide FreshView;
      var before := frames;
      activeRuns, persistQueues, jobs, frames := {}, map[], map[], map[];
      var k := 0;
      while k < |ids|
        invariant 0 <= k <= |ids| && Coherent() && files == old(files) && activeRuns == {}
        invariant forall j :: j in jobs <==> j in ids[..k]
        invariant persistQueues.Keys <= jobs.Keys
        invariant forall j :: j in jobs ==> j in files && View(j) == FreshView(before[j].limit, files[j])
      {
        assert ids[..k + 1] == ids[..k] + [ids[k]];
        LoadJob(ids[k], before[ids[k]].limit);
        k := k + 1;
      }
      assert ids[..k] == ids;
    }

    // Every job of the new process is one restart further.
    twostate lemma Restarted(j: nat)
      requires old(Valid()) && Coherent() && j in jobs && j in old(jobs) && j in files && files == old(files)
      requires View(j) == FreshView(old(frames)[j].limit, files[j])
      ensures View(j) == Next(old(View(j)), Restart) == Replay(Then(old(history)[j], Restart))
    {
      assert old(View(j)) == Replay(old(history)[j]);
      FreshIsRestarted(old(View(j)), files[j]);
      ReplayThen(old(history)[j], Restart);
      hide Replay;
      hide Next;
      hide FreshView;
      hide ActiveOf;
    }

    twostate lemma AllRestarted()
      requires old(Valid()) && Coherent() && files == old(files) && jobs.Keys == files.Keys <= old(jobs).Keys
      requires forall j :: j in jobs ==> View(j) == FreshView(old(frames)[j].limit, files[j])
      requires history.Keys == files.Keys && forall j :: j in files ==>
        j in old(history) && history[j] == Then(old(history)[j], Restart)
      ensures Valid()
      ensures forall j :: j in jobs ==> View(j) == Next(old(View(j)), Restart)
    {
      hide FreshView;
      hide Replay;
      hide Next;
      hide Then;
      hide ActiveOf;
      forall j | j in jobs
        ensures View(j) == Next(old(View(j)), Restart) == Replay(history[j])
      {
        Restarted(j);
      }
    }

    lemma ValidMaps()
      requires Valid()
      ensures Coherent() && files.Keys <= jobs.Keys && history.Keys == jobs.Keys
    {
    }

    // The process dies at any moment and a new one initialises from the directory: `ids` lists it.
    method RestartFrom(ids: seq<nat>)
      requires Valid() && (forall id :: id in ids <==> id in files)
      requires forall a, b :: 0 <= a < b < |ids| ==> ids[a] != ids[b]
      modifies this
      ensures Valid() && files == old(files) && jobs.Keys == files.Keys
      ensures forall j :: j in jobs ==> j in old(jobs) && View(j) == Next(old(View(j)), Restart)
      ensures forall j :: j in jobs ==> history[j] == Then(old(history)[j], Restart)
    {
      hide Valid;
      hide View;
      hide FreshView;
      hide Next;
      hide Then;
      hide ActiveOf;
      ValidMaps();
      LoadAll(ids);
      history := map j | j in files :: Then(history[j], Restart);
      AllRestarted();
    }

    // ----- What holds of every gateway object -----

    // A verdict it shows is on disk in some snapshot, unless it says that saving failed.
    lemma VerdictsAreDurable(j: nat)
      requires Valid() && j in jobs && !frames[j].executor.Reloaded?
      requires jobs[j].status != InProgress && !jobs[j].persistenceError
      ensures exists k ::
        && 0 <= k < |frames[j].writes| && frames[j].writes[k].phase.Landed?
        && frames[j].writes[k].snapshot.status == jobs[j].status
    {
      var o := history[j];
      assert View(j) == Replay(o);
      GatewaySessions.VerdictsAreDurable(o.runs, o.limit, o.actions);
      hide Exec;
      hide ActiveOf;
    }

    // The jobs submitted with a run and a worker.
    ghost predicate Worked(j: nat)
      requires Valid() && j in jobs
      reads this
    {
      history[j].runs >= 1 && history[j].limit >= 1
    }

    // activeRuns holds exactly the runs whose frame has a session that is not closed, none of a
    // frame that is gone; a session is started at most once, closed at most once and never
    // cancelled after that.
    lemma SessionsAreBracketed(j: nat, i: nat)
      requires Valid() && j in jobs && Worked(j)
      ensures var tasks := frames[j].tasks;
        && (RunId(j, i) in activeRuns <==>
              i < |tasks| && tasks[i].session.Some? && tasks[i].session.value.closes == 0)
        && (i < |tasks| && tasks[i].session.Some? ==> GatewaySessions.Bracketed(tasks[i].session.value))
        && (i < |tasks| && GatewayInvariant.Finished(tasks[i].pc) ==> RunId(j, i) !in activeRuns)
    {
      var o := history[j];
      assert View(j) == Replay(o);
      GatewaySessions.SessionsAreBracketed(o.runs, o.limit, o.actions, i);
      ActiveJoins(activeRuns, j, i);
      hide Exec;
      hide ActiveOf;
    }

    // It never holds more active sessions of a job than the job's limit.
    lemma BoundedConcurrency(j: nat)
      requires Valid() && j in jobs && Worked(j)
      ensures |ActiveOf(activeRuns, j)| <= history[j].limit
    {
      var o := history[j];
      assert View(j) == Replay(o);
      GatewaySessions.BoundedConcurrency(o.runs, o.limit, o.actions);
      hide Exec;
      hide ActiveOf;
    }

    // No run it shows, in memory or on disk, claims a success that its stream did not end in.
    lemma NoInventedSuccess(j: nat)
      requires Valid() && j in jobs && Worked(j)
      ensures forall i :: 0 <= i < |jobs[j].runs| && jobs[j].runs[i].state == SUCCEEDED ==>
        LastTerminal(jobs[j].runs[i].events) == Some(SUCCEEDED)
      ensures j in files ==> forall i :: 0 <= i < |files[j].runs| && files[j].runs[i].state == SUCCEEDED ==>
        LastTerminal(files[j].runs[i].events) == Some(SUCCEEDED)
      ensures jobs[j].status == COMPLETED ==> forall i :: 0 <= i < |jobs[j].runs| ==>
        LastTerminal(jobs[j].runs[i].events) == Some(SUCCEEDED)
    {
      var o := history[j];
      assert View(j) == Replay(o);
      GatewayTheorems.NoInventedSuccess(o.runs, o.limit, o.actions, jobs[j]);
      if j in files {
        GatewayTheorems.NoInventedSuccess(o.runs, o.limit, o.actions, files[j]);
      }
      hide Exec;
      hide ActiveOf;
    }

    // The verdict it has chosen for a job says of the runs it was taken from what the policy says.
    lemma VerdictFollowsPolicy(j: nat)
      requires Valid() && j in jobs && (frames[j].executor.Committing? || frames[j].executor.Published?)
      ensures var e, writes := frames[j].executor, frames[j].writes;
        e.op < |writes| && writes[e.op].snapshot.status == e.verdict && GatewaySessions.Judged(writes[e.op].snapshot)
    {
      var o := history[j];
      assert View(j) == Replay(o);
      GatewaySessions.VerdictFollowsPolicy(o.runs, o.limit, o.actions);
      hide Exec;
      hide ActiveOf;
    }

    // What it shows of a run, and what the adapter of that run saw, is what the run's story says.
    lemma RunFollowsStory(j: nat, i: nat)
      requires Valid() && j in jobs && Worked(j) && i < history[j].runs && !frames[j].executor.Reloaded?
      ensures i < |jobs[j].runs| && i < |frames[j].tasks|
      ensures var o := history[j];
        GatewayOutcome.Told(jobs[j].runs[i], frames[j].tasks[i],
          GatewayOutcome.Story(Init(o.runs, o.limit), o.actions, i))
    {
      var o := history[j];
      assert View(j) == Replay(o);
      GatewayOutcome.RunFollowsStory(o.runs, o.limit, o.actions, i);
      hide Exec;
      hide ActiveOf;
      hide GatewayOutcome.Told;
    }

    // From one moment to any later one, however many methods, crashes and restarts lie between:
    // a run that had returned is unchanged.
    twostate lemma ReturnedRunsNeverChange(j: nat, i: nat, since: seq<Action>)
      requires old(Valid()) && Valid() && j in old(jobs) && j in jobs && old(Worked(j))
      requires history[j] == old(history)[j].(actions := old(history)[j].actions + since)
      requires i < |old(frames)[j].tasks| && old(frames)[j].tasks[i].pc.Done?
      ensures i < |old(jobs)[j].runs| && i < |jobs[j].runs|
      ensures GatewayInvariant.Core(jobs[j].runs[i]) == GatewayInvariant.Core(old(jobs)[j].runs[i])
    {
      var o := old(history)[j];
      assert old(View(j)) == Replay(o);
      assert View(j) == Replay(history[j]);
      GatewayEdges.ExecConcat(Init(o.runs, o.limit), o.actions, since);
      GatewayFinality.DoneRunNeverChanges(o.runs, o.limit, o.actions, since, i);
      hide Exec;
      hide ActiveOf;
    }
  }

  // A job as a new process first sees it.
  function FreshView(limit: int, saved: Job): Sys {
    var job := Repair(saved);
    var idle := Queue.Empty(Some(saved));
    Sys(limit, job, {}, seq(|job.runs|, _ => Task(Done, 0, None)), Pool.Start(0, 0), Reloaded, [],
        if NeedsRepair(saved) then Queue.Enqueue(idle, job) else idle)
  }

  lemma FreshIsRestarted(s: Sys, saved: Job)
    requires s.queue.disk == Some(saved)
    ensures Next(s, Restart) == FreshView(s.limit, saved)
  {
  }

  function AwaitedOp(pc: Pc): Option<nat> {
    match pc
    case AwaitCancelPersist(op) => Some(op)
    case AwaitFailPersist(op) => Some(op)
    case AwaitStartingPersist(op) => Some(op)
    case AwaitRunningPersist(op) => Some(op)
    case AwaitEventPersist(op) => Some(op)
    case AwaitCatchPersist(op) => Some(op)
    case AwaitFinalPersist(op, _) => Some(op)
    case _ => None
  }
}
