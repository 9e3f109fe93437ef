// What is on disk before a frame goes on: every step of a run is saved before the next is taken.
module GatewayDurable {
  import opened Wrappers
  import Events
  import opened GatewayModel
  import opened GatewayInvariant
  import opened GatewayTheorems
  import opened GatewaySessions
  import opened GatewayFinality
  import opened GatewayOutcome
  import Queue = PersistQueue
  import Pool = WorkerPool

  // Write `op` carries run `i` in that state, or with that stream.
  predicate Shows(q: Queue.Queue<Job>, op: nat, i: nat, state: RunState) {
    op < |q.ops| && i < |q.ops[op].snapshot.runs| && q.ops[op].snapshot.runs[i].state == state
  }

  predicate Streams(q: Queue.Queue<Job>, op: nat, i: nat, events: seq<Events.EventType>) {
    op < |q.ops| && i < |q.ops[op].snapshot.runs| && q.ops[op].snapshot.runs[i].events == events
  }

  predicate Blames(q: Queue.Queue<Job>, op: nat, i: nat, error: Option<ErrorCode>) {
    op < |q.ops| && i < |q.ops[op].snapshot.runs| && q.ops[op].snapshot.runs[i].error == error
  }

  predicate StateLanded(q: Queue.Queue<Job>, i: nat, state: RunState) {
    exists k :: 0 <= k < |q.ops| && Shows(q, k, i, state) && q.ops[k].phase.Landed?
  }

  predicate StreamLanded(q: Queue.Queue<Job>, i: nat, events: seq<Events.EventType>) {
    exists k :: 0 <= k < |q.ops| && Streams(q, k, i, events) && q.ops[k].phase.Landed?
  }

  // What the frame awaits is a snapshot of what it has just done, and what it does next waited
  // for such a snapshot to land.
  predicate PlaceSaved(pc: Pc, q: Queue.Queue<Job>, i: nat, run: Run) {
    match pc
    case AwaitCancelPersist(op) => Shows(q, op, i, CANCELLED)
    case AwaitFailPersist(op) => Shows(q, op, i, FAILED) && Blames(q, op, i, run.error)
    case AwaitStartingPersist(op) => Shows(q, op, i, STARTING)
    case AwaitCreateSession => StateLanded(q, i, STARTING)
    case AwaitRunningPersist(op) => Shows(q, op, i, RUNNING) && Streams(q, op, i, run.events)
    case AwaitNext => StreamLanded(q, i, run.events)
    case AwaitEventPersist(op) => Streams(q, op, i, run.events)
    case AwaitArtifacts => StreamLanded(q, i, run.events)
    case AwaitCatchPersist(op) => Shows(q, op, i, FAILED) && Blames(q, op, i, run.error)
    case _ => true
  }

  predicate SessionSaved(session: Option<Session>, q: Queue.Queue<Job>, i: nat) {
    session.Some? ==>
      StateLanded(q, i, STARTING) && (session.value.starts > 0 ==> StateLanded(q, i, RUNNING))
  }

  // The pool starts once the first snapshot has landed.
  predicate SubmissionSaved(s: Sys) {
    match s.executor
    case Submitting(op) => op == 0 && |s.queue.ops| > 0
    case SubmitFailed => true
    case Reloaded => true
    case _ => |s.queue.ops| > 0 && s.queue.ops[0].phase.Landed?
  }

  predicate SavedAt(s: Sys, i: nat) {
    InRange(s, i) && PlaceSaved(s.tasks[i].pc, s.queue, i, s.job.runs[i])
      && SessionSaved(s.tasks[i].session, s.queue, i)
  }

  // ----- More writes, and settled ones, take nothing back -----

  lemma LandedKept(q: Queue.Queue<Job>, r: Queue.Queue<Job>, i: nat)
    requires Extends(q, r)
    ensures forall state :: StateLanded(q, i, state) ==> StateLanded(r, i, state)
    ensures forall events :: StreamLanded(q, i, events) ==> StreamLanded(r, i, events)
  {
    forall state | StateLanded(q, i, state)
      ensures StateLanded(r, i, state)
    {
      var k :| 0 <= k < |q.ops| && Shows(q, k, i, state) && q.ops[k].phase.Landed?;
      assert Shows(r, k, i, state);
    }
    forall events | StreamLanded(q, i, events)
      ensures StreamLanded(r, i, events)
    {
      var k :| 0 <= k < |q.ops| && Streams(q, k, i, events) && q.ops[k].phase.Landed?;
      assert Streams(r, k, i, events);
    }
  }

  lemma AsideSaved(s: Sys, t: Sys, i: nat)
    requires SavedAt(s, i) && Aside(s, t, i) && Extends(s.queue, t.queue)
    ensures SavedAt(t, i)
  {
    LandedKept(s.queue, t.queue, i);
    hide StateLanded;
    hide StreamLanded;
  }

  // ----- The frame's own steps -----

  lemma LandsNow(q: Queue.Queue<Job>, op: nat, i: nat)
    requires op < |q.ops| && q.ops[op].phase.Landed?
    ensures forall state :: Shows(q, op, i, state) ==> StateLanded(q, i, state)
    ensures forall events :: Streams(q, op, i, events) ==> StreamLanded(q, i, events)
  {
  }

  // At most one write was enqueued, of the job as it is now.
  predicate OneWrite(s: Sys, t: Sys) {
    t.queue == s.queue || t.queue == Queue.Enqueue(s.queue, t.job)
  }

  lemma OneWriteExtends(s: Sys, t: Sys)
    requires OneWrite(s, t)
    ensures Extends(s.queue, t.queue)
  {
  }

  lemma BeginSaves(s: Sys, p: Pool.Pool, i: nat, enabled: bool)
    requires SavedAt(s, i) && s.tasks[i].session.None?
    ensures SavedAt(Begin(s.(pool := p), i, enabled), i)
  {
  }

  lemma HealthSaves(s: Sys, i: nat, health: Health)
    requires SavedAt(s, i) && s.tasks[i].session.None?
    ensures SavedAt(AfterHealth(s, i, health), i)
  {
  }

  lemma CatchSaves(s: Sys, i: nat, code: ErrorCode)
    requires SavedAt(s, i)
    ensures SavedAt(Catch(s, i, code), i)
  {
    LandedKept(s.queue, Catch(s, i, code).queue, i);
    hide StateLanded;
    hide StreamLanded;
  }

  lemma SessionSaves(s: Sys, i: nat, ok: bool)
    requires SavedAt(s, i) && s.tasks[i].pc.AwaitCreateSession?
    ensures SavedAt(AfterSession(s, i, ok), i)
  {
    CatchSaves(s, i, FromAdapter);
    LandedKept(s.queue, AfterSession(s, i, ok).queue, i);
    hide Catch;
    hide StateLanded;
    hide StreamLanded;
  }

  lemma StreamSaves(s: Sys, i: nat, step: StreamStep)
    requires SavedAt(s, i) && s.tasks[i].pc.AwaitNext?
    ensures SavedAt(AfterStream(s, i, step), i)
  {
    CatchSaves(s, i, FromAdapter);
    LandedKept(s.queue, AfterStream(s, i, step).queue, i);
    hide Catch;
    hide Record;
    hide StateLanded;
    hide StreamLanded;
  }

  lemma FinalSaves(s: Sys, i: nat, rethrow: bool)
    requires SavedAt(s, i)
    ensures SavedAt(FinalPersist(s, i, rethrow), i)
  {
    hide StateLanded;
    hide StreamLanded;
    LandedKept(s.queue, FinalPersist(s, i, rethrow).queue, i);
  }

  lemma FinallySaves(s: Sys, i: nat, rethrow: bool)
    requires SavedAt(s, i)
    ensures SavedAt(Finally(s, i, rethrow), i)
  {
    hide StateLanded;
    hide StreamLanded;
    LandedKept(s.queue, Finally(s, i, rethrow).queue, i);
  }

  lemma ArtifactSaves(s: Sys, i: nat, artifact: ArtifactStep)
    requires SavedAt(s, i) && s.tasks[i].pc.AwaitArtifacts?
    ensures SavedAt(AfterArtifact(s, i, artifact), i)
  {
    CatchSaves(s, i, FromAdapter);
    CatchSaves(s, i, ProtocolMismatch);
    FinallySaves(s, i, false);
    hide Catch;
    hide Finally;
    hide EndsOpen;
    hide StateLanded;
    hide StreamLanded;
  }

  // The frame goes on where its write has landed.
  lemma MovesOn(s: Sys, i: nat, pc: Pc)
    requires SavedAt(s, i) && PlaceSaved(pc, s.queue, i, s.job.runs[i])
    ensures SavedAt(SetPc(s, i, pc), i)
  {
    hide StateLanded;
    hide StreamLanded;
  }

  lemma StreamBegins(s: Sys, i: nat)
    requires SavedAt(s, i) && s.tasks[i].pc.AwaitRunningPersist?
    requires StateLanded(s.queue, i, RUNNING) && StreamLanded(s.queue, i, s.job.runs[i].events)
    ensures SavedAt(StartStream(s, i), i)
  {
    hide StateLanded;
    hide StreamLanded;
  }

  lemma PersistSaves(s: Sys, i: nat)
    requires SavedAt(s, i)
    ensures SavedAt(AfterPersist(s, i), i)
  {
    hide StateLanded;
    hide StreamLanded;
    hide SessionSaved;
    hide Catch;
    hide Finally;
    hide StartStream;
    var op := AwaitedWrite(s.tasks[i].pc);
    if op.Some? && Back(s, op.value) {
      var saved := Saved(s, op.value);
      if saved {
        LandsNow(s.queue, op.value, i);
      }
      match s.tasks[i].pc {
        case AwaitRunningPersist(_) => if saved { StreamBegins(s, i); } else { CatchSaves(s, i, FromDisk); }
        case AwaitCatchPersist(_) => FinallySaves(s, i, !saved);
        case AwaitStartingPersist(_) => MovesOn(s, i, if saved then AwaitCreateSession else Threw);
        case AwaitEventPersist(_) => MovesOn(s, i, if saved then AwaitNext else AwaitReturn);
        case AwaitFinalPersist(_, rethrow) => MovesOn(s, i, if rethrow || !saved then Threw else Done);
        case _ => MovesOn(s, i, if saved then Done else Threw);
      }
    }
    hide SetPc;
    hide SavedAt;
  }

  lemma OwnSaves(s: Sys, a: Action, i: nat)
    requires SavedAt(s, i) && Resumed(a) == Some(i) && TaskOk(s.job.runs[i], s.tasks[i], i in s.active)
    ensures SavedAt(Next(s, a), i)
  {
    hide SavedAt;
    hide AfterPersist;
    hide AfterHealth;
    hide AfterSession;
    hide AfterStream;
    hide AfterArtifact;
    hide Catch;
    hide FinalPersist;
    SavedInRange(s, i);
    match a {
      case PersistReturns(_) => PersistSaves(s, i);
      case HealthReturns(_, health) => if s.tasks[i].pc.AwaitHealth? { HealthSaves(s, i, health); }
      case SessionReturns(_, ok) => if s.tasks[i].pc.AwaitCreateSession? { SessionSaves(s, i, ok); }
      case StreamReturns(_, step) => if s.tasks[i].pc.AwaitNext? { StreamSaves(s, i, step); }
      case IteratorReturns(_) => if s.tasks[i].pc.AwaitReturn? { CatchSaves(s, i, FromDisk); }
      case ArtifactReturns(_, artifact) => if s.tasks[i].pc.AwaitArtifacts? { ArtifactSaves(s, i, artifact); }
      case CloseReturns(_) =>
        if s.tasks[i].pc.AwaitClose? {
          var rethrow := s.tasks[i].pc.rethrow;
          FinalSaves(s, i, rethrow);
        }
    }
  }

  // ----- Every step -----

  lemma WorkerSaves(s: Sys, w: nat, enabled: bool, i: nat)
    requires Inv(s) && SavedAt(s, i)
    ensures SavedAt(Next(s, WorkerResumes(w, enabled)), i)
  {
    hide Inv;
    hide PlaceSaved;
    TaskAt(s, i);
    WorkerClaims(s, w, enabled);
    WorkerFrame(s, w, enabled);
    var t := StepWorker(s, w, enabled);
    hide StepWorker;
    FrameOneWrite(s, t);
    if t == s.(pool := t.pool) {
    } else if s.pool.next == i {
      BeginSaves(s, t.pool, i, enabled);
    } else {
      BeginTouches(s.(pool := t.pool), s.pool.next, enabled);
      OneWriteExtends(s, t);
      AsideSaved(s, t, i);
    }
    hide Begin;
  }

  lemma FrameOneWrite(s: Sys, t: Sys)
    requires Frame(s, t)
    ensures OneWrite(s, t)
  {
  }

  lemma OtherExtends(s: Sys, a: Action)
    requires !a.Restart? && ReturnsSettled(s.queue)
    ensures Extends(s.queue, Next(s, a).queue)
  {
    if a.DiskWrite? || a.WriteReturns? {
      AdvanceExtends(s.queue, a.op, a.DiskWrite? && a.ok);
    } else if Background(a) {
      BackgroundQueue(s, a);
      OneCallExtends(s.queue, Next(s, a).queue);
      hide Next;
    } else {
      OuterFrame(s, a);
      FrameOneWrite(s, Next(s, a));
      OneWriteExtends(s, Next(s, a));
      hide Next;
    }
  }

  lemma OneCallExtends(q: Queue.Queue<Job>, r: Queue.Queue<Job>)
    requires OneCall(q, r)
    ensures Extends(q, r)
  {
  }

  lemma OtherSaves(s: Sys, a: Action, i: nat)
    requires SavedAt(s, i) && ReturnsSettled(s.queue) && !a.Restart? && !a.WorkerResumes? && Resumed(a) != Some(i)
    ensures SavedAt(Next(s, a), i)
  {
    hide PlaceSaved;
    hide SessionSaved;
    OtherExtends(s, a);
    if a.CancelJob? || a.CancelRun? || a.CancelReturns? {
      ClientAside(s, a, i);
    } else if Background(a) {
      BackgroundAside(s, a, i);
    } else {
      ResumedAside(s, a, i);
    }
    AsideSaved(s, Next(s, a), i);
    hide Next;
  }

  lemma SubmissionKept(s: Sys, t: Sys)
    requires SubmissionSaved(s) && t.executor == s.executor && Extends(s.queue, t.queue)
    ensures SubmissionSaved(t)
  {
  }

  lemma SubmissionStep(s: Sys, a: Action)
    requires SubmissionSaved(s) && ReturnsSettled(s.queue)
    ensures SubmissionSaved(Next(s, a))
  {
    if a.Restart? {
      hide Repair;
      hide NeedsRepair;
    } else {
      OtherExtends(s, a);
      if !Background(a) {
        OuterFrame(s, a);
        SubmissionKept(s, Next(s, a));
        hide Next;
      }
    }
    hide Verdict;
  }

  predicate AllSaved(s: Sys, i: nat) {
    s.executor.Reloaded? || (SavedAt(s, i) && SubmissionSaved(s))
  }

  lemma StepSaves(s: Sys, a: Action, i: nat)
    requires Inv(s) && VerdictSaved(s) && AllSaved(s, i)
    ensures AllSaved(Next(s, a), i)
  {
    hide Inv;
    hide SavedAt;
    hide Shown;
    hide ReturnsSettled;
    if s.executor.Reloaded? || (a.Restart? && s.queue.disk.Some?) {
      ReloadedStays(s, a);
    } else if a.Restart? {
      RestartHeard(s, i);
    } else {
      SubmissionStep(s, a);
      if a.WorkerResumes? {
        WorkerSaves(s, a.w, a.enabled, i);
      } else if Resumed(a) == Some(i) {
        SavedInRange(s, i);
        TaskAt(s, i);
        OwnSaves(s, a, i);
      } else {
        OtherSaves(s, a, i);
      }
    }
    hide Next;
    hide SubmissionSaved;
  }

  lemma SavedInRange(s: Sys, i: nat)
    requires SavedAt(s, i)
    ensures InRange(s, i)
  {
    hide PlaceSaved;
    hide SessionSaved;
  }

  lemma {:induction false} ExecSaves(s: Sys, actions: seq<Action>, i: nat)
    requires Inv(s) && VerdictSaved(s) && AllSaved(s, i)
    ensures AllSaved(Exec(s, actions), i)
    decreases |actions|
  {
    hide Inv;
    hide VerdictSaved;
    hide AllSaved;
    hide Next;
    if actions != [] {
      NextInv(s, actions[0]);
      ExecSaved(s, [actions[0]]);
      assert Exec(s, [actions[0]]) == Next(s, actions[0]) by { assert [actions[0]][1..] == []; }
      StepSaves(s, actions[0], i);
      ExecSaves(Next(s, actions[0]), actions[1..], i);
    }
  }

  // For every schedule: a frame awaits the snapshot of what it has just done; no session is opened
  // before STARTING is on disk, no stream before RUNNING, no event or artifact read before the
  // events so far are; and no run is claimed before the job itself is.
  lemma StepsAreSavedFirst(n: nat, limit: int, actions: seq<Action>, i: nat)
    requires n >= 1 && limit >= 1 && i < n
    ensures var s := Exec(Init(n, limit), actions);
      !s.executor.Reloaded? ==>
      && InRange(s, i)
      && PlaceSaved(s.tasks[i].pc, s.queue, i, s.job.runs[i])
      && SessionSaved(s.tasks[i].session, s.queue, i)
      && (!s.tasks[i].pc.Unclaimed? ==> |s.queue.ops| > 0 && s.queue.ops[0].phase.Landed?)
  {
    hide VerdictSaved;
    hide PlaceSaved;
    hide SessionSaved;
    hide Exec;
    hide Inv;
    hide AllSaved;
    InitInv(n, limit);
    InitSaves(n, limit, i);
    ExecSaves(Init(n, limit), actions, i);
    Reachable(n, limit, actions);
    ClaimedIsSaved(Exec(Init(n, limit), actions), i);
  }

  lemma InitSaves(n: nat, limit: int, i: nat)
    requires i < n
    ensures VerdictSaved(Init(n, limit)) && AllSaved(Init(n, limit), i)
  {
  }

  lemma ClaimedIsSaved(s: Sys, i: nat)
    requires Inv(s) && AllSaved(s, i)
    ensures !s.executor.Reloaded? ==>
      && SavedAt(s, i) && InRange(s, i)
      && (!s.tasks[i].pc.Unclaimed? ==> |s.queue.ops| > 0 && s.queue.ops[0].phase.Landed?)
  {
    hide Inv;
    hide PlaceSaved;
    hide SessionSaved;
    ExecutorAt(s);
  }

  // ----- What a snapshot is -----

  // The write that a step enqueued is the job as the step left it; a commit writes a copy that
  // differs in its verdict alone, or in the report that the engine failed.
  predicate Snapped(s: Sys, t: Sys) {
    || t.queue == s.queue
    || t.queue == Queue.Enqueue(s.queue, t.job)
    || (t.executor.Committing? && t.executor.op == |s.queue.ops| && t.job == s.job
        && t.queue == Queue.Enqueue(s.queue, s.job.(status := t.executor.verdict)))
    || (t.executor == CommittingFailure(|s.queue.ops|) && t.job == s.job
        && t.queue == Queue.Enqueue(s.queue, s.job.(status := FAILED_JOB, error := true)))
  }

  // Of every step but those of the file system and a restart, from any state.
  lemma SnapshotsAreTheJob(s: Sys, a: Action)
    requires !a.DiskWrite? && !a.WriteReturns? && !a.Restart?
    ensures Snapped(s, Next(s, a))
  {
    if Background(a) {
      hide Verdict;
      hide Pool.Rejects;
      hide Pool.Resolves;
    } else {
      OuterFrame(s, a);
      hide Next;
    }
  }
}
