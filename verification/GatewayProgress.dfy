// From every reachable state of a job that can still be saved, a verdict can be reached.
module GatewayProgress {
  import opened Wrappers
  import opened GatewayModel
  import opened GatewayInvariant
  import opened GatewayTheorems
  import opened GatewaySessions
  import opened GatewayEdges
  import opened GatewayFinality
  import opened GatewayWrites
  import opened GatewayAbsorption
  import Queue = PersistQueue
  import Pool = WorkerPool

  // A schedule without clients, crashes, failed writes and misbehaving adapters.
  predicate Benign(a: Action) {
    match a
    case WorkerResumes(_, enabled) => enabled
    case HealthReturns(_, health) => health.Healthy?
    case SessionReturns(_, ok) => ok
    case StreamReturns(_, step) => !step.Throws?
    case ArtifactReturns(_, artifact) => !artifact.CollectThrows?
    case DiskWrite(_, ok) => ok
    case CancelJob => false
    case CancelRun(_) => false
    case CancelReturns(_, _) => false
    case Restart => false
    case _ => true
  }

  predicate Calm(actions: seq<Action>) {
    forall k :: 0 <= k < |actions| ==> Benign(actions[k])
  }

  // What `before` a resumption brings, then the resumption.
  lemma ThenOne(s: Sys, wait: seq<Action>, a: Action)
    requires Calm(wait) && Benign(a)
    ensures Calm(wait + [a]) && Exec(s, wait + [a]) == Next(Exec(s, wait), a)
  {
    ExecConcat(s, wait, [a]);
    One(Exec(s, wait), a);
  }

  lemma ThenAll(s: Sys, a: seq<Action>, b: seq<Action>)
    requires Calm(a) && Calm(b)
    ensures Calm(a + b) && Exec(s, a + b) == Exec(Exec(s, a), b)
  {
    ExecConcat(s, a, b);
  }

  // ----- One frame -----

  // How far the frame of one run is from its end.
  function Distance(pc: Pc): nat {
    match pc
    case Unclaimed => 13
    case AwaitHealth => 12
    case AwaitStartingPersist(_) => 11
    case AwaitCreateSession => 10
    case AwaitRunningPersist(_) => 9
    case AwaitEventPersist(_) => 8
    case AwaitNext => 7
    case AwaitReturn => 6
    case AwaitArtifacts => 6
    case AwaitCatchPersist(_) => 5
    case AwaitClose(_) => 4
    case AwaitFinalPersist(_, _) => 3
    case AwaitFailPersist(_) => 2
    case AwaitCancelPersist(_) => 2
    case Done => 0
    case Threw => 0
  }

  // A good answer to whatever the frame awaits.
  function Answer(pc: Pc, i: nat): Action {
    match pc
    case AwaitHealth => HealthReturns(i, Healthy)
    case AwaitCreateSession => SessionReturns(i, true)
    case AwaitNext => StreamReturns(i, Ends)
    case AwaitReturn => IteratorReturns(i)
    case AwaitArtifacts => ArtifactReturns(i, NoMore)
    case AwaitClose(_) => CloseReturns(i)
    case _ => PersistReturns(i)
  }

  // The frame of run `i` came nearer its end, and no other part of the engine moved.
  predicate Advanced(s: Sys, t: Sys, i: nat) {
    && InRange(s, i) && InRange(t, i) && Distance(t.tasks[i].pc) < Distance(s.tasks[i].pc)
    && t.pool == s.pool && t.executor == s.executor
  }

  lemma PersistAdvances(s: Sys, i: nat)
    requires InRange(s, i) && AwaitedWrite(s.tasks[i].pc).Some? && Back(s, AwaitedWrite(s.tasks[i].pc).value)
    requires s.tasks[i].pc.AwaitRunningPersist? ==> s.tasks[i].session.Some?
    ensures Advanced(s, AfterPersist(s, i), i)
  {
    hide Ticket;
    hide Queue.Enqueue;
  }

  lemma CallAdvances(s: Sys, i: nat)
    requires InRange(s, i)
    ensures s.tasks[i].pc.AwaitHealth? ==> Advanced(s, AfterHealth(s, i, Healthy), i)
    ensures s.tasks[i].pc.AwaitCreateSession? ==> Advanced(s, AfterSession(s, i, true), i)
    ensures s.tasks[i].pc.AwaitNext? ==> Advanced(s, AfterStream(s, i, Ends), i)
    ensures s.tasks[i].pc.AwaitReturn? ==> Advanced(s, Catch(s, i, FromDisk), i)
  {
    hide Ticket;
    hide Queue.Enqueue;
  }

  lemma EndAdvances(s: Sys, i: nat)
    requires InRange(s, i)
    ensures s.tasks[i].pc.AwaitArtifacts? ==> Advanced(s, AfterArtifact(s, i, NoMore), i)
    ensures s.tasks[i].pc.AwaitClose? ==> Advanced(s, FinalPersist(s, i, s.tasks[i].pc.rethrow), i)
  {
    hide Ticket;
    hide EndsOpen;
    hide Queue.Enqueue;
  }

  lemma AnswerAdvances(s: Sys, i: nat)
    requires InRange(s, i) && InFlight(s.tasks[i].pc) && TaskOk(s.job.runs[i], s.tasks[i], i in s.active)
    requires AwaitedWrite(s.tasks[i].pc).Some? ==> Back(s, AwaitedWrite(s.tasks[i].pc).value)
    ensures Advanced(s, Next(s, Answer(s.tasks[i].pc, i)), i)
  {
    hide Advanced;
    hide AfterPersist;
    hide AfterHealth;
    hide AfterSession;
    hide AfterStream;
    hide AfterArtifact;
    hide Catch;
    hide FinalPersist;
    if AwaitedWrite(s.tasks[i].pc).Some? {
      PersistAdvances(s, i);
    } else {
      CallAdvances(s, i);
      EndAdvances(s, i);
    }
  }

  // What the invariants say of a reachable state, and of any state a schedule leads to from it.
  ghost predicate Sound(s: Sys) {
    Inv(s) && Told(s) && VerdictSaved(s)
  }

  lemma {:induction false} ExecSound(s: Sys, actions: seq<Action>)
    requires Sound(s)
    ensures Sound(Exec(s, actions))
  {
    ExecTold(s, actions);
    ExecSaved(s, actions);
    hide Inv;
    hide Told;
    hide VerdictSaved;
  }

  lemma WriteKnown(s: Sys, i: nat)
    requires Sound(s) && i < |s.tasks|
    ensures InRange(s, i) && TaskOk(s.job.runs[i], s.tasks[i], i in s.active)
    ensures AwaitedWrite(s.tasks[i].pc).Some? ==> AwaitedWrite(s.tasks[i].pc).value < |s.queue.ops|
    ensures Queue.Linked(s.queue)
  {
    RunToldAt(s, i);
    TaskAt(s, i);
    assert Queue.Linked(s.queue);
    hide Inv;
    hide Told;
    hide Queue.Linked;
    hide TaskOk;
  }

  // An awaited write, if there is one, comes back.
  lemma WriteWaits(s: Sys, op: Option<nat>) returns (wait: seq<Action>)
    requires Queue.Linked(s.queue) && (op.Some? ==> op.value < |s.queue.ops|)
    ensures Calm(wait)
    ensures var t := Exec(s, wait); t == s.(queue := t.queue) && (op.Some? ==> Back(t, op.value))
    ensures op.Some? ==> (Saved(Exec(s, wait), op.value) <==> !Broken(s.queue, op.value))
  {
    hide Queue.Linked;
    wait := [];
    if op.Some? {
      wait := CanReturn(s, op.value);
      hide Exec;
    }
  }

  lemma FrameMoves(s: Sys, i: nat) returns (actions: seq<Action>)
    requires Sound(s) && i < |s.tasks| && InFlight(s.tasks[i].pc)
    ensures Calm(actions) && Advanced(s, Exec(s, actions), i)
  {
    hide Sound;
    hide TaskOk;
    hide AwaitedWrite;
    hide Distance;
    hide Queue.Linked;
    hide Next;
    WriteKnown(s, i);
    var wait := WriteWaits(s, AwaitedWrite(s.tasks[i].pc));
    var t, answer := Exec(s, wait), Answer(s.tasks[i].pc, i);
    actions := wait + [answer];
    ThenOne(s, wait, answer);
    hide Exec;
    AnswerAdvances(t, i);
    hide Answer;
  }

  lemma {:induction false} FrameFinishes(s: Sys, i: nat) returns (actions: seq<Action>)
    requires Sound(s) && i < |s.tasks| && !s.tasks[i].pc.Unclaimed?
    ensures Calm(actions)
    ensures var t := Exec(s, actions);
      Sound(t) && i < |t.tasks| && Finished(t.tasks[i].pc) && t.pool == s.pool && t.executor == s.executor
    decreases Distance(s.tasks[i].pc)
  {
    actions := [];
    if !Finished(s.tasks[i].pc) {
      actions := FrameMoves(s, i);
      ExecSound(s, actions);
      var t := Exec(s, actions);
      hide Exec;
      hide Sound;
      var rest := FrameFinishes(t, i);
      ThenAll(s, actions, rest);
      actions := actions + rest;
    }
  }

  // ----- The pool -----

  lemma WorkerMoves(s: Sys, w: nat)
    requires Inv(s) && w < |s.pool.workers| && (s.pool.workers[w].Ready? || s.pool.workers[w].Busy?)
    requires s.pool.workers[w].Busy? ==>
      s.pool.workers[w].item < |s.tasks| && Finished(s.tasks[s.pool.workers[w].item].pc)
    ensures Pool.Measure(StepWorker(s, w, true).pool) < Pool.Measure(s.pool)
    ensures Pool.Measure(s.pool) >= 0
  {
    hide Inv;
    hide Pool.Valid;
    hide Pool.Measure;
    hide Pool.Next;
    PoolFacts(s, w);
    var ok := s.pool.workers[w].Ready? || s.tasks[s.pool.workers[w].item].pc.Done?;
    Pool.StepShortens(s.pool, Pool.Act(w, ok));
    PoolChanges(s.pool, w, ok);
  }

  lemma PoolChanges(p: Pool.Pool, w: nat, ok: bool)
    requires Pool.Valid(p) && w < |p.workers| && (p.workers[w].Ready? || p.workers[w].Busy?)
    requires p.workers[w].Ready? ==> ok
    ensures Pool.Next(p, Pool.Act(w, ok)) != p
  {
    assert p.workers[w].Busy? ==> p.workers[w].item in Pool.Holds(p.workers[w]);
  }

  lemma BusyIsClaimed(s: Sys, w: nat)
    requires Inv(s) && w < |s.pool.workers| && s.pool.workers[w].Busy?
    ensures s.pool.workers[w].item < |s.tasks| && !s.tasks[s.pool.workers[w].item].pc.Unclaimed?
  {
    assert s.pool.workers[w].item in Pool.Holds(s.pool.workers[w]);
  }

  // The task that a worker awaits, if it awaits one, finishes.
  lemma WorkerWaits(s: Sys, w: nat) returns (wait: seq<Action>)
    requires Sound(s) && w < |s.pool.workers|
    ensures Calm(wait)
    ensures var t := Exec(s, wait);
      && Sound(t) && t.pool == s.pool && t.executor == s.executor
      && (s.pool.workers[w].Busy? ==>
        s.pool.workers[w].item < |t.tasks| && Finished(t.tasks[s.pool.workers[w].item].pc))
  {
    wait := [];
    if s.pool.workers[w].Busy? {
      BusyIsClaimed(s, w);
      hide Sound;
      wait := FrameFinishes(s, s.pool.workers[w].item);
      hide Exec;
    }
    hide Sound;
  }

  lemma PoolMoves(s: Sys) returns (actions: seq<Action>)
    requires Sound(s) && s.executor.Pooling? && !Pool.Rejects(s.pool) && !Pool.Resolves(s.pool)
    ensures Calm(actions)
    ensures var t := Exec(s, actions);
      Sound(t) && t.executor == s.executor && Pool.Measure(t.pool) < Pool.Measure(s.pool)
    ensures Pool.Measure(s.pool) >= 0
  {
    var w :| 0 <= w < |s.pool.workers| && !s.pool.workers[w].Retired?;
    assert s.pool.workers[w].Ready? || s.pool.workers[w].Busy?;
    var wait := WorkerWaits(s, w);
    var t := Exec(s, wait);
    actions := wait + [WorkerResumes(w, true)];
    ThenOne(s, wait, WorkerResumes(w, true));
    ExecSound(s, actions);
    hide Exec;
    assert Inv(t);
    hide Sound;
    hide Inv;
    WorkerMoves(t, w);
    WorkerFrame(t, w, true);
    hide StepWorker;
    hide Pool.Measure;
  }

  lemma {:induction false} PoolEnds(s: Sys) returns (actions: seq<Action>)
    requires Sound(s) && s.executor.Pooling?
    ensures Calm(actions)
    ensures var t := Exec(s, actions);
      Sound(t) && t.executor.Pooling? && (Pool.Rejects(t.pool) || Pool.Resolves(t.pool))
    decreases Pool.Measure(s.pool)
  {
    actions := [];
    if !Pool.Rejects(s.pool) && !Pool.Resolves(s.pool) {
      actions := PoolMoves(s);
      var t := Exec(s, actions);
      hide Exec;
      hide Sound;
      hide Pool.Measure;
      var rest := PoolEnds(t);
      ThenAll(s, actions, rest);
      actions := actions + rest;
    }
  }

  // ----- The executor -----

  // The submission failed, or its write did and it is about to.
  predicate Stranded(s: Sys) {
    s.executor.SubmitFailed? || (s.executor.Submitting? && Broken(s.queue, s.executor.op))
  }

  function Stage(e: Executor): nat {
    match e
    case Submitting(_) => 4
    case Pooling => 3
    case Committing(_, _) => 2
    case CommittingFailure(_) => 1
    case _ => 0
  }

  // The executor came nearer its end, not by failing the submission.
  predicate Nearing(s: Sys, t: Sys) {
    Stage(t.executor) < Stage(s.executor) && !t.executor.SubmitFailed? && !t.executor.Submitting?
  }

  // The write the executor awaits.
  function ExecutorWrite(e: Executor): Option<nat> {
    match e
    case Submitting(op) => Some(op)
    case Committing(op, _) => Some(op)
    case CommittingFailure(op) => Some(op)
    case _ => None
  }

  function ExecutorAnswer(e: Executor): Action {
    match e
    case Submitting(_) => SubmitResumes
    case Pooling => PoolSettles
    case _ => CommitReturns
  }

  lemma AnswerNears(s: Sys)
    requires Stage(s.executor) > 0
    requires s.executor.Pooling? ==> Pool.Rejects(s.pool) || Pool.Resolves(s.pool)
    requires ExecutorWrite(s.executor).Some? ==> Back(s, ExecutorWrite(s.executor).value)
    requires s.executor.Submitting? ==> Saved(s, s.executor.op)
    ensures Nearing(s, Next(s, ExecutorAnswer(s.executor)))
  {
    hide Verdict;
    hide Queue.Enqueue;
    hide Pool.Rejects;
    hide Pool.Resolves;
  }

  lemma ExecutorKnown(s: Sys)
    requires Sound(s)
    ensures ExecutorWrite(s.executor).Some? ==> ExecutorWrite(s.executor).value < |s.queue.ops|
    ensures Queue.Linked(s.queue)
  {
    ExecutorAt(s);
    assert Queue.Linked(s.queue);
    hide Inv;
    hide Told;
    hide Queue.Linked;
  }

  lemma ExecutorMoves(s: Sys) returns (actions: seq<Action>)
    requires Sound(s) && Stage(s.executor) > 0 && !Stranded(s)
    ensures Calm(actions) && Nearing(s, Exec(s, actions))
  {
    ExecutorKnown(s);
    hide Sound;
    hide Queue.Linked;
    var answer := ExecutorAnswer(s.executor);
    var wait: seq<Action>;
    if s.executor.Pooling? {
      wait := PoolEnds(s);
    } else {
      wait := WriteWaits(s, ExecutorWrite(s.executor));
    }
    var t := Exec(s, wait);
    actions := wait + [answer];
    ThenOne(s, wait, answer);
    hide Exec;
    AnswerNears(t);
    hide Pool.Rejects;
    hide Pool.Resolves;
    hide Next;
  }

  // With nothing left to do, the executor has shown a verdict or failed the submission.
  lemma StagesEnd(s: Sys)
    requires Sound(s) && Stage(s.executor) == 0 && !s.executor.SubmitFailed?
    ensures s.job.status != InProgress
  {
  }

  lemma {:induction false} ExecutorEnds(s: Sys) returns (actions: seq<Action>)
    requires Sound(s) && !Stranded(s)
    ensures Calm(actions) && Exec(s, actions).job.status != InProgress
    decreases Stage(s.executor)
  {
    actions := [];
    if Stage(s.executor) == 0 {
      StagesEnd(s);
      hide Sound;
    } else {
      actions := ExecutorMoves(s);
      ExecSound(s, actions);
      var t := Exec(s, actions);
      hide Exec;
      hide Sound;
      var rest := ExecutorEnds(t);
      ThenAll(s, actions, rest);
      actions := actions + rest;
    }
  }

  // ----- A failed submission -----

  lemma StrandedStep(s: Sys, a: Action)
    requires Stranded(s) && !a.Restart?
    ensures Stranded(Next(s, a))
  {
    if s.executor.Submitting? {
      BrokenStays(s, a, s.executor.op);
    }
    if !Background(a) {
      OuterFrame(s, a);
      hide Next;
    }
    hide Broken;
  }

  lemma {:induction false} StrandedForever(s: Sys, actions: seq<Action>)
    requires Stranded(s) && Sound(s) && NoRestart(actions)
    ensures Exec(s, actions).job.status == InProgress
    decreases |actions|
  {
    if actions == [] {
    } else {
      StrandedStep(s, actions[0]);
      ExecSound(s, [actions[0]]);
      One(s, actions[0]);
      assert NoRestart(actions[1..]);
      StrandedForever(Next(s, actions[0]), actions[1..]);
      hide Sound;
      hide Stranded;
    }
    hide Next;
  }

  lemma CalmRestarts(actions: seq<Action>)
    requires Calm(actions)
    ensures NoRestart(actions)
  {
  }

  lemma VerdictOrStranded(s: Sys)
    requires Sound(s)
    ensures Stranded(s) ==> forall after :: NoRestart(after) ==> Exec(s, after).job.status == InProgress
    ensures !Stranded(s) ==>
      exists after :: Calm(after) && NoRestart(after) && Exec(s, after).job.status != InProgress
  {
    hide Sound;
    hide Stranded;
    hide Exec;
    hide Calm;
    hide NoRestart;
    if Stranded(s) {
      forall after | NoRestart(after)
        ensures Exec(s, after).job.status == InProgress
      {
        StrandedForever(s, after);
      }
    } else {
      var after := ExecutorEnds(s);
      CalmRestarts(after);
    }
  }

  // From every reachable state some continuation of this process shows a verdict if and only if the
  // submission has not failed; and then one does in which no client calls, no write fails and no
  // adapter throws.  So no frame, worker or write is ever left waiting for something that cannot come.
  lemma VerdictIsReachable(n: nat, limit: int, before: seq<Action>)
    requires n >= 1 && limit >= 1
    ensures var s := Exec(Init(n, limit), before);
      && ((exists after :: NoRestart(after) && Exec(s, after).job.status != InProgress) <==> !Stranded(s))
      && (!Stranded(s) ==> exists after :: Calm(after) && Exec(s, after).job.status != InProgress)
  {
    hide Inv;
    hide Told;
    hide Stranded;
    hide Exec;
    hide Calm;
    hide NoRestart;
    InitSaved(n, limit);
    hide VerdictSaved;
    ReachableTold(n, limit, before);
    ExecSaved(Init(n, limit), before);
    VerdictOrStranded(Exec(Init(n, limit), before));
  }

  lemma InitSaved(n: nat, limit: int)
    ensures VerdictSaved(Init(n, limit))
  {
  }
}
