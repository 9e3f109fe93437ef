// Exactly when a terminal state is final: for every reachable moment and every single run.
module GatewayAbsorption {
  import opened Wrappers
  import Events
  import opened GatewayModel
  import opened GatewayInvariant
  import opened GatewayTheorems
  import opened GatewaySessions
  import opened GatewayEdges
  import opened GatewayWrites
  import opened GatewayFinality
  import Queue = PersistQueue
  import Pool = WorkerPool

  // Nothing the frame may still do replaces the state.  The frame that has passed its cancel check
  // but has no session yet goes on to STARTING or RUNNING, and the frame of a stream goes on to the
  // next event or to the catch block; what stops them is a write that has already failed.
  predicate Absorbing(pc: Pc, state: RunState, q: Queue.Queue<Job>) {
    match pc
    case AwaitHealth => false
    case AwaitStartingPersist(op) => Broken(q, op)
    case AwaitCreateSession => false
    case AwaitRunningPersist(_) => false
    case AwaitNext => false
    case AwaitEventPersist(op) => state == FAILED && Broken(q, op)
    case AwaitReturn => state == FAILED
    case AwaitArtifacts => state == FAILED
    case _ => true
  }

  // ----- Cancellations leave a trace -----

  // A run marked before it is claimed, and a sweep that awaits an adapter, belong to a cancelJob.
  ghost predicate Traced(s: Sys) {
    && |s.tasks| == |s.job.runs|
    && (forall i :: 0 <= i < |s.tasks| && s.tasks[i].pc.Unclaimed? && s.job.runs[i].state != QUEUED ==>
      s.job.cancelRequested)
    && (forall c :: 0 <= c < |s.cancels| && s.cancels[c].JobAwaitAdapter? ==> s.job.cancelRequested)
  }

  // An unclaimed frame was unclaimed before, and its run has not changed.
  predicate StillUnclaimed(s: Sys, t: Sys, i: nat) {
    InRange(s, i) && InRange(t, i) && (t.tasks[i].pc.Unclaimed? ==>
      s.tasks[i].pc.Unclaimed? && t.job.runs[i] == s.job.runs[i])
  }

  predicate Begun(s: Sys, i: nat) {
    InRange(s, i) && !s.tasks[i].pc.Unclaimed?
  }

  lemma BackgroundUnclaimed(s: Sys, a: Action, i: nat)
    requires InRange(s, i) && Background(a)
    ensures StillUnclaimed(s, Next(s, a), i)
  {
    hide Verdict;
    hide Queue.Advance;
    hide Queue.Release;
  }

  lemma BeginClaims(s: Sys, i: nat, enabled: bool)
    requires InRange(s, i)
    ensures Begun(Begin(s, i, enabled), i)
  {
  }

  lemma WorkerUnclaimed(s: Sys, w: nat, enabled: bool, i: nat)
    requires Inv(s) && InRange(s, i)
    ensures StillUnclaimed(s, StepWorker(s, w, enabled), i)
  {
    WorkerClaims(s, w, enabled);
    var t := StepWorker(s, w, enabled);
    hide Inv;
    hide StepWorker;
    if t != s.(pool := t.pool) {
      BeginTouches(s.(pool := t.pool), s.pool.next, enabled);
      BeginClaims(s.(pool := t.pool), s.pool.next, enabled);
    }
    hide Begin;
  }

  // A resumed frame has been claimed.
  lemma PersistClaimed(s: Sys, i: nat)
    requires InRange(s, i)
    ensures AfterPersist(s, i) == s || Begun(AfterPersist(s, i), i)
  {
    hide Ticket;
    hide Queue.Enqueue;
  }

  lemma SetupClaimed(s: Sys, i: nat, health: Health, ok: bool)
    requires InRange(s, i)
    ensures Begun(AfterHealth(s, i, health), i) && Begun(AfterSession(s, i, ok), i)
    ensures Begun(Catch(s, i, FromDisk), i) && Begun(FinalPersist(s, i, ok), i)
  {
    hide Ticket;
    hide Queue.Enqueue;
  }

  lemma StreamClaimed(s: Sys, i: nat, step: StreamStep, artifact: ArtifactStep)
    requires Begun(s, i)
    ensures Begun(AfterStream(s, i, step), i) && Begun(AfterArtifact(s, i, artifact), i)
  {
    hide EndsOpen;
    hide Record;
    hide Ticket;
    hide Queue.Enqueue;
  }

  lemma OwnUnclaimed(s: Sys, a: Action, i: nat)
    requires InRange(s, i) && Resumed(a) == Some(i)
    ensures StillUnclaimed(s, Next(s, a), i)
  {
    hide AfterPersist;
    hide AfterHealth;
    hide AfterSession;
    hide AfterStream;
    hide AfterArtifact;
    hide Catch;
    hide FinalPersist;
    match a {
      case PersistReturns(_) => PersistClaimed(s, i);
      case HealthReturns(_, health) => SetupClaimed(s, i, health, true);
      case SessionReturns(_, ok) => SetupClaimed(s, i, Healthy, ok);
      case StreamReturns(_, step) => if Awaits(s, i, AwaitNext) { StreamClaimed(s, i, step, NoMore); }
      case IteratorReturns(_) => SetupClaimed(s, i, Healthy, true);
      case ArtifactReturns(_, artifact) => if Awaits(s, i, AwaitArtifacts) { StreamClaimed(s, i, Ends, artifact); }
      case CloseReturns(_) => if s.tasks[i].pc.AwaitClose? { SetupClaimed(s, i, Healthy, s.tasks[i].pc.rethrow); }
    }
  }

  lemma UnclaimedKept(s: Sys, a: Action, i: nat)
    requires Inv(s) && InRange(s, i)
    requires !a.Restart? && !a.CancelJob? && !a.CancelRun? && !a.CancelReturns?
    ensures StillUnclaimed(s, Next(s, a), i)
  {
    if a.WorkerResumes? {
      WorkerUnclaimed(s, a.w, a.enabled, i);
    } else if Background(a) {
      BackgroundUnclaimed(s, a, i);
    } else if Resumed(a) == Some(i) {
      OwnUnclaimed(s, a, i);
    } else {
      Elsewhere(s, a, i);
      hide Next;
    }
    hide Inv;
    hide StepWorker;
  }

  lemma OuterCancels(s: Sys, a: Action)
    requires !a.CancelJob? && !a.CancelRun? && !a.CancelReturns? && !a.Restart?
    ensures Next(s, a).cancels == s.cancels
  {
    if Background(a) {
    } else if a.WorkerResumes? {
      WorkerCancels(s, a.w, a.enabled);
    } else {
      ResumedCancels(s, a);
    }
  }

  lemma WorkerCancels(s: Sys, w: nat, enabled: bool)
    ensures StepWorker(s, w, enabled).cancels == s.cancels
  {
  }

  lemma ResumedCancels(s: Sys, a: Action)
    requires Resumed(a).Some?
    ensures Next(s, a).cancels == s.cancels
  {
  }

  lemma ResumeTraced(s: Sys, c: nat, k: nat, threw: bool)
    requires Traced(s) && c < |s.cancels| && s.cancels[c].JobAwaitAdapter? && k < |s.job.runs|
    requires |ResumeSweep(s, c, k, threw).tasks| == |ResumeSweep(s, c, k, threw).job.runs| == |s.tasks|
    ensures Traced(ResumeSweep(s, c, k, threw))
  {
    SweepRequested(NoteError(s, k, threw), k + 1);
    hide Sweep;
  }

  lemma CancelTraced(s: Sys)
    requires Traced(s)
    requires |StartCancelJob(s).tasks| == |StartCancelJob(s).job.runs|
    ensures Traced(StartCancelJob(s))
  {
    hide Sweep;
    SweepRequested(s.(job := s.job.(cancelRequested := true)), 0);
  }

  lemma RunCancelTraced(s: Sys, i: nat)
    requires Traced(s)
    ensures Traced(StartCancelRun(s, i))
  {
  }

  lemma AnswerTraced(s: Sys, c: nat, threw: bool)
    requires Traced(s) && |AfterCancel(s, c, threw).tasks| == |AfterCancel(s, c, threw).job.runs| == |s.tasks|
    ensures Traced(AfterCancel(s, c, threw))
  {
    hide ResumeSweep;
    hide Queue.Enqueue;
    if c < |s.cancels| && s.cancels[c].JobAwaitAdapter? && s.cancels[c].run < |s.job.runs| {
      ResumeTraced(s, c, s.cancels[c].run, threw);
    }
  }

  lemma ClientTraced(s: Sys, a: Action)
    requires Traced(s) && (a.CancelJob? || a.CancelRun? || a.CancelReturns?)
    requires |Next(s, a).tasks| == |Next(s, a).job.runs| == |s.tasks|
    ensures Traced(Next(s, a))
  {
    hide StartCancelJob;
    hide StartCancelRun;
    hide AfterCancel;
    hide Traced;
    match a {
      case CancelJob => CancelTraced(s);
      case CancelRun(k) => RunCancelTraced(s, k);
      case CancelReturns(c, threw) => AnswerTraced(s, c, threw);
    }
  }

  lemma SweepRequested(s: Sys, from: nat)
    requires s.job.cancelRequested
    ensures Sweep(s, from).0.job.cancelRequested
  {
  }

  lemma RequestKept(s: Sys, a: Action)
    requires !a.Restart?
    ensures s.job.cancelRequested ==> Next(s, a).job.cancelRequested
  {
    if Background(a) {
      BackgroundKeeps(s, a);
    } else {
      OuterFrame(s, a);
    }
    hide Next;
  }

  lemma UnclaimedTraced(s: Sys, t: Sys)
    requires Traced(s) && |t.tasks| == |t.job.runs| && t.cancels == s.cancels
    requires s.job.cancelRequested ==> t.job.cancelRequested
    requires forall i :: 0 <= i < |t.tasks| ==> StillUnclaimed(s, t, i)
    ensures Traced(t)
  {
    forall i | 0 <= i < |t.tasks| && t.tasks[i].pc.Unclaimed? && t.job.runs[i].state != QUEUED
      ensures t.job.cancelRequested
    {
      assert StillUnclaimed(s, t, i);
    }
  }

  lemma OuterTraced(s: Sys, a: Action)
    requires Inv(s) && Traced(s) && !a.CancelJob? && !a.CancelRun? && !a.CancelReturns? && !a.Restart?
    ensures Traced(Next(s, a))
  {
    NextInv(s, a);
    LengthsAgree(s);
    LengthsAgree(Next(s, a));
    CountStep(s, a);
    OuterCancels(s, a);
    RequestKept(s, a);
    hide Inv;
    hide Next;
    forall i | 0 <= i < |s.tasks|
      ensures StillUnclaimed(s, Next(s, a), i)
    {
      UnclaimedKept(s, a, i);
    }
    UnclaimedTraced(s, Next(s, a));
    hide StillUnclaimed;
    hide Traced;
  }

  lemma NextTraced(s: Sys, a: Action)
    requires Inv(s) && Traced(s)
    ensures Traced(Next(s, a))
  {
    NextInv(s, a);
    LengthsAgree(Next(s, a));
    CountStep(s, a);
    if a.CancelJob? || a.CancelRun? || a.CancelReturns? {
      hide Inv;
      ClientTraced(s, a);
    } else if a.Restart? {
      hide Inv;
    } else {
      OuterTraced(s, a);
    }
    hide Next;
  }

  // The three facts about a reachable state that this file needs.
  ghost predicate Known(s: Sys) {
    Inv(s) && Told(s) && Traced(s)
  }

  lemma NextKnown(s: Sys, a: Action)
    requires Known(s)
    ensures Known(Next(s, a))
  {
    hide Inv;
    hide Told;
    hide Traced;
    hide Next;
    NextInv(s, a);
    NextTold(s, a);
    NextTraced(s, a);
  }

  lemma {:induction false} ExecKnown(s: Sys, actions: seq<Action>)
    requires Known(s)
    ensures Known(Exec(s, actions))
    decreases |actions|
  {
    hide Known;
    hide Next;
    if actions != [] {
      NextKnown(s, actions[0]);
      ExecKnown(Next(s, actions[0]), actions[1..]);
    }
  }

  lemma ReachableKnown(n: nat, limit: int, actions: seq<Action>)
    requires n >= 1 && limit >= 1
    ensures Known(Exec(Init(n, limit), actions))
  {
    InitInv(n, limit);
    InitTold(n, limit);
    assert Traced(Init(n, limit));
    hide Inv;
    hide Told;
    ExecKnown(Init(n, limit), actions);
  }

  // ----- An absorbing state stays -----

  // Run `i` is in a terminal state that its frame cannot leave.
  predicate Absorbed(s: Sys, i: nat, state: RunState) {
    && InRange(s, i) && s.job.runs[i].state == state && Terminal(state)
    && Absorbing(s.tasks[i].pc, state, s.queue)
  }

  lemma BrokenStays(s: Sys, a: Action, op: nat)
    requires Broken(s.queue, op) && !a.Restart?
    ensures Broken(Next(s, a).queue, op)
  {
    if a.DiskWrite? || a.WriteReturns? {
    } else {
      StepEnqueues(s, a);
      hide Next;
    }
  }

  lemma AbsorbingStays(s: Sys, a: Action, pc: Pc, state: RunState)
    requires Absorbing(pc, state, s.queue) && !a.Restart?
    ensures Absorbing(pc, state, Next(s, a).queue)
  {
    match pc {
      case AwaitStartingPersist(op) => BrokenStays(s, a, op);
      case AwaitEventPersist(op) => if state == FAILED { BrokenStays(s, a, op); }
      case _ =>
    }
    hide Next;
    hide Broken;
  }

  lemma AbsorbedPersist(s: Sys, i: nat)
    requires InRange(s, i) && Absorbed(s, i, s.job.runs[i].state)
    ensures Absorbed(AfterPersist(s, i), i, s.job.runs[i].state)
  {
  }

  lemma AbsorbedCatch(s: Sys, i: nat, code: ErrorCode)
    requires InRange(s, i)
    ensures Absorbed(Catch(s, i, code), i, FAILED)
  {
    hide Ticket;
    hide Queue.Enqueue;
  }

  lemma AbsorbedFinally(s: Sys, i: nat, rethrow: bool)
    requires InRange(s, i) && Terminal(s.job.runs[i].state)
    ensures Absorbed(Finally(s, i, rethrow), i, s.job.runs[i].state)
  {
    hide Ticket;
    hide Queue.Enqueue;
  }

  lemma AbsorbedArtifact(s: Sys, i: nat, artifact: ArtifactStep)
    requires Awaits(s, i, AwaitArtifacts) && Absorbed(s, i, s.job.runs[i].state)
    ensures Absorbed(AfterArtifact(s, i, artifact), i, s.job.runs[i].state)
  {
    AbsorbedCatch(s, i, FromAdapter);
    AbsorbedCatch(s, i, ProtocolMismatch);
    AbsorbedFinally(s, i, false);
    hide Catch;
    hide Finally;
    hide EndsOpen;
  }

  lemma AbsorbedOwn(s: Sys, a: Action, i: nat)
    requires InRange(s, i) && Resumed(a) == Some(i) && Absorbed(s, i, s.job.runs[i].state)
    ensures Absorbed(Next(s, a), i, s.job.runs[i].state)
  {
    match a {
      case PersistReturns(_) => AbsorbedPersist(s, i); hide AfterPersist;
      case ArtifactReturns(_, artifact) =>
        if Awaits(s, i, AwaitArtifacts) { AbsorbedArtifact(s, i, artifact); hide AfterArtifact; }
      case _ =>
    }
  }

  lemma AbsorbedBegins(s: Sys, p: Pool.Pool, i: nat, enabled: bool)
    requires InRange(s, i) && s.tasks[i].pc.Unclaimed? && s.job.cancelRequested && s.job.runs[i].state == CANCELLED
    ensures Absorbed(Begin(s.(pool := p), i, enabled), i, CANCELLED)
  {
  }

  lemma AbsorbedStep(s: Sys, a: Action, i: nat)
    requires Known(s) && i < |s.tasks| && i < |s.job.runs| && !a.Restart? && Absorbed(s, i, s.job.runs[i].state)
    ensures Absorbed(Next(s, a), i, s.job.runs[i].state)
  {
    hide Inv;
    hide Told;
    hide Absorbing;
    TaskAt(s, i);
    if !Own(s, a, i) {
      OthersStay(s, a, i);
      AbsorbingStays(s, a, s.tasks[i].pc, s.job.runs[i].state);
    } else if a.WorkerResumes? {
      WorkerBegins(s, a.w, a.enabled, i);
      var t := StepWorker(s, a.w, a.enabled);
      if Stays(s, t, i) {
        AbsorbingStays(s, a, s.tasks[i].pc, s.job.runs[i].state);
      } else {
        var p :| t == Begin(s.(pool := p), i, a.enabled);
        AbsorbedBegins(s, p, i, a.enabled);
      }
    } else {
      AbsorbedOwn(s, a, i);
    }
    hide Next;
  }

  lemma {:induction false} AbsorbedForever(s: Sys, actions: seq<Action>, i: nat)
    requires Known(s) && NoRestart(actions) && i < |s.tasks| && i < |s.job.runs| && Absorbed(s, i, s.job.runs[i].state)
    ensures Absorbed(Exec(s, actions), i, s.job.runs[i].state)
    decreases |actions|
  {
    hide Known;
    hide Next;
    hide Absorbing;
    if actions != [] {
      NextKnown(s, actions[0]);
      AbsorbedStep(s, actions[0], i);
      assert NoRestart(actions[1..]);
      AbsorbedForever(Next(s, actions[0]), actions[1..], i);
    }
  }

  // ----- Any other terminal state can be left -----

  // After the write came back the frame resumes, and then whatever `last` says happens.
  lemma ThenResumes(s: Sys, op: nat, i: nat, last: Action) returns (actions: seq<Action>)
    requires Inv(s) && op < |s.queue.ops| && !last.Restart?
    ensures NoRestart(actions)
    ensures exists q: Queue.Queue<Job> ::
      && Back(s.(queue := q), op) && (Saved(s.(queue := q), op) <==> !Broken(s.queue, op))
      && Exec(s, actions) == Next(Next(s.(queue := q), PersistReturns(i)), last)
  {
    assert Queue.Linked(s.queue);
    var wait := CanReturn(s, op);
    var t := Exec(s, wait);
    actions := wait + [PersistReturns(i), last];
    ExecConcat(s, wait, [PersistReturns(i), last]);
    TwoSteps(t, PersistReturns(i), last);
    hide Inv;
    hide Next;
    hide Exec;
    assert t == s.(queue := t.queue);
  }

  // An event that names another state.
  function OtherEvent(state: RunState): Events.EventType {
    if state == SUCCEEDED then Events.RunFailed else Events.RunSucceeded
  }

  // What happens next to a frame that can leave its terminal state.
  function Departure(pc: Pc, state: RunState, i: nat, q: Queue.Queue<Job>): Action {
    match pc
    case AwaitHealth => HealthReturns(i, Healthy)
    case AwaitStartingPersist(_) => SessionReturns(i, true)
    case AwaitCreateSession => SessionReturns(i, true)
    case AwaitEventPersist(op) =>
      if Broken(q, op) then IteratorReturns(i) else StreamReturns(i, Yields(OtherEvent(state)))
    case AwaitNext => StreamReturns(i, Yields(OtherEvent(state)))
    case AwaitArtifacts => ArtifactReturns(i, CollectThrows)
    case _ => IteratorReturns(i)
  }

  predicate Left(s: Sys, i: nat, state: RunState) {
    InRange(s, i) && s.job.runs[i].state != state
  }

  lemma LeavesSetup(s: Sys, i: nat)
    requires InRange(s, i) && Terminal(s.job.runs[i].state)
    ensures s.tasks[i].pc.AwaitHealth? ==> Left(Next(s, HealthReturns(i, Healthy)), i, s.job.runs[i].state)
    ensures s.tasks[i].pc.AwaitCreateSession? ==> Left(Next(s, SessionReturns(i, true)), i, s.job.runs[i].state)
  {
  }

  lemma LeavesEvents(s: Sys, i: nat)
    requires InRange(s, i) && Terminal(s.job.runs[i].state) && s.tasks[i].pc.AwaitNext?
    ensures Left(Next(s, StreamReturns(i, Yields(OtherEvent(s.job.runs[i].state)))), i, s.job.runs[i].state)
  {
  }

  lemma LeavesCaught(s: Sys, i: nat)
    requires InRange(s, i) && s.job.runs[i].state != FAILED
    ensures s.tasks[i].pc.AwaitReturn? ==> Left(Next(s, IteratorReturns(i)), i, s.job.runs[i].state)
    ensures s.tasks[i].pc.AwaitArtifacts? ==> Left(Next(s, ArtifactReturns(i, CollectThrows)), i, s.job.runs[i].state)
  {
  }

  lemma LeavesAtOnce(s: Sys, i: nat)
    requires Inv(s) && InRange(s, i) && Terminal(s.job.runs[i].state) && OpenWrite(s.tasks[i].pc).None?
    requires !Absorbing(s.tasks[i].pc, s.job.runs[i].state, s.queue)
    ensures Left(Next(s, Departure(s.tasks[i].pc, s.job.runs[i].state, i, s.queue)), i, s.job.runs[i].state)
  {
    TaskAt(s, i);
    hide Inv;
    hide Next;
    hide Left;
    hide OtherEvent;
    match s.tasks[i].pc {
      case AwaitHealth => LeavesSetup(s, i);
      case AwaitCreateSession => LeavesSetup(s, i);
      case AwaitNext => LeavesEvents(s, i);
      case AwaitReturn => LeavesCaught(s, i);
      case AwaitArtifacts => LeavesCaught(s, i);
    }
  }

  lemma LeavesStarting(s: Sys, i: nat, op: nat, q: Queue.Queue<Job>)
    requires InRange(s, i) && s.tasks[i].pc == AwaitStartingPersist(op) && Terminal(s.job.runs[i].state)
    requires Back(s.(queue := q), op) && Saved(s.(queue := q), op)
    ensures Left(Next(Next(s.(queue := q), PersistReturns(i)), SessionReturns(i, true)), i, s.job.runs[i].state)
  {
    var t := Next(s.(queue := q), PersistReturns(i));
    assert t.tasks[i].pc == AwaitCreateSession && t.job == s.job;
  }

  lemma LeavesStream(s: Sys, i: nat, op: nat, q: Queue.Queue<Job>)
    requires InRange(s, i) && s.tasks[i].pc == AwaitEventPersist(op) && Terminal(s.job.runs[i].state)
    requires Back(s.(queue := q), op) && (!Saved(s.(queue := q), op) ==> s.job.runs[i].state != FAILED)
    ensures var state := s.job.runs[i].state;
      var last := if Saved(s.(queue := q), op) then StreamReturns(i, Yields(OtherEvent(state))) else IteratorReturns(i);
      Left(Next(Next(s.(queue := q), PersistReturns(i)), last), i, state)
  {
    var t := Next(s.(queue := q), PersistReturns(i));
    assert InRange(t, i) && t.tasks[i].pc == (if Saved(s.(queue := q), op) then AwaitNext else AwaitReturn)
      && t.job == s.job;
    hide Next;
    hide Left;
    hide OtherEvent;
    if Saved(s.(queue := q), op) {
      LeavesEvents(t, i);
    } else {
      LeavesCaught(t, i);
    }
  }

  lemma LeavesAfterWrite(s: Sys, i: nat, op: nat, q: Queue.Queue<Job>)
    requires InRange(s, i) && Terminal(s.job.runs[i].state) && OpenWrite(s.tasks[i].pc) == Some(op)
    requires !s.tasks[i].pc.AwaitRunningPersist?
    requires !Absorbing(s.tasks[i].pc, s.job.runs[i].state, s.queue)
    requires Back(s.(queue := q), op) && (Saved(s.(queue := q), op) <==> !Broken(s.queue, op))
    ensures Left(Next(Next(s.(queue := q), PersistReturns(i)),
      Departure(s.tasks[i].pc, s.job.runs[i].state, i, s.queue)), i, s.job.runs[i].state)
  {
    hide Broken;
    hide Next;
    hide Left;
    hide OtherEvent;
    if s.tasks[i].pc.AwaitStartingPersist? {
      LeavesStarting(s, i, op, q);
    } else {
      LeavesStream(s, i, op, q);
    }
  }

  lemma Leaves(s: Sys, i: nat) returns (actions: seq<Action>)
    requires Inv(s) && Told(s) && InRange(s, i) && Terminal(s.job.runs[i].state)
    requires !Absorbing(s.tasks[i].pc, s.job.runs[i].state, s.queue)
    ensures NoRestart(actions) && Left(Exec(s, actions), i, s.job.runs[i].state)
  {
    var pc := s.tasks[i].pc;
    var last := Departure(pc, s.job.runs[i].state, i, s.queue);
    TaskAt(s, i);
    RunToldAt(s, i);
    match OpenWrite(pc) {
      case None =>
        LeavesAtOnce(s, i);
        actions := [last];
        One(s, last);
        hide Inv;
      case Some(op) =>
        actions := ThenResumes(s, op, i, last);
        var q: Queue.Queue<Job> :|
          && Back(s.(queue := q), op) && (Saved(s.(queue := q), op) <==> !Broken(s.queue, op))
          && Exec(s, actions) == Next(Next(s.(queue := q), PersistReturns(i)), last);
        hide Inv;
        LeavesAfterWrite(s, i, op, q);
    }
    hide Told;
    hide Next;
    hide Absorbing;
    hide Departure;
  }

  // The state of run `i` after the schedule, if it is still there.
  predicate InState(s: Sys, i: nat, state: RunState) {
    i < |s.job.runs| && s.job.runs[i].state == state
  }

  // A terminal state is absorbing, as long as the process lives, if and only if the frame stands
  // where Absorbing says.  The condition is read from the frame and the awaited write alone.
  lemma TerminalStateStays(n: nat, limit: int, before: seq<Action>, i: nat)
    requires n >= 1 && limit >= 1
    requires var s := Exec(Init(n, limit), before); InRange(s, i) && Terminal(s.job.runs[i].state)
    ensures var s := Exec(Init(n, limit), before);
      (forall after :: NoRestart(after) ==> InState(Exec(s, after), i, s.job.runs[i].state))
      <==> Absorbing(s.tasks[i].pc, s.job.runs[i].state, s.queue)
  {
    ReachableKnown(n, limit, before);
    var s := Exec(Init(n, limit), before);
    StaysIff(s, i);
  }

  lemma StaysIff(s: Sys, i: nat)
    requires Known(s) && InRange(s, i) && Terminal(s.job.runs[i].state)
    ensures (forall after :: NoRestart(after) ==> InState(Exec(s, after), i, s.job.runs[i].state))
      <==> Absorbing(s.tasks[i].pc, s.job.runs[i].state, s.queue)
  {
    var state := s.job.runs[i].state;
    if Absorbing(s.tasks[i].pc, state, s.queue) {
      forall after | NoRestart(after)
        ensures InState(Exec(s, after), i, state)
      {
        AbsorbedForever(s, after, i);
      }
    } else {
      var after := Leaves(s, i);
      assert !InState(Exec(s, after), i, state);
    }
    hide Known;
    hide Absorbing;
  }

  // A step of cancelJob, its first sweep or a resumed one, marks the run CANCELLED.
  predicate Marks(s: Sys, a: Action, i: nat) {
    && (a.CancelJob? || a.CancelReturns?)
    && InRange(s, i) && !Terminal(s.job.runs[i].state)
    && InState(Next(s, a), i, CANCELLED)
  }

  // The mark that cancelJob sets on a run stays, as long as the process lives, if and only if the
  // run had not been claimed, or its frame had thrown, or its STARTING snapshot had failed to be
  // written.  On every other run it can set the mark on, it is overwritten by some schedule.
  lemma MarkStays(n: nat, limit: int, before: seq<Action>, a: Action, i: nat)
    requires n >= 1 && limit >= 1 && Marks(Exec(Init(n, limit), before), a, i)
    ensures var s := Exec(Init(n, limit), before);
      (forall after :: NoRestart(after) ==> InState(Exec(Next(s, a), after), i, CANCELLED))
      <==> match s.tasks[i].pc
        case Unclaimed => true
        case Threw => true
        case AwaitStartingPersist(op) => Broken(s.queue, op)
        case _ => false
  {
    ReachableKnown(n, limit, before);
    var s := Exec(Init(n, limit), before);
    var t := Next(s, a);
    NextKnown(s, a);
    TaskAt(s, i);
    OthersStay(s, a, i);
    StepEnqueues(s, a);
    StaysIff(t, i);
    hide Known;
    hide Inv;
    hide Next;
    hide Exec;
    hide NoRestart;
    MarkedPlaces(s, t, i);
  }

  lemma MarkedPlaces(s: Sys, t: Sys, i: nat)
    requires InRange(s, i) && InRange(t, i) && TaskOk(s.job.runs[i], s.tasks[i], i in s.active)
      && !Terminal(s.job.runs[i].state)
    requires t.tasks[i].pc == s.tasks[i].pc && Enqueues(s, t)
    requires OpenWrite(s.tasks[i].pc).Some? ==> OpenWrite(s.tasks[i].pc).value < |s.queue.ops|
    ensures Absorbing(t.tasks[i].pc, CANCELLED, t.queue) <==>
      match s.tasks[i].pc
      case Unclaimed => true
      case Threw => true
      case AwaitStartingPersist(op) => Broken(s.queue, op)
      case _ => false
  {
  }
}
