// When a run is final: for every run by itself, across restarts, and exactly.
module GatewayFinality {
  import opened Wrappers
  import Events
  import opened GatewayModel
  import opened GatewayInvariant
  import opened GatewayTheorems
  import opened GatewaySessions
  import opened GatewayEdges
  import Queue = PersistQueue
  import Pool = WorkerPool

  // ----- What the writes show of one run -----

  type RunCore = (RunState, seq<Events.EventType>, seq<nat>, Option<ErrorCode>)

  // The write after which the frame returns, if it is awaiting that.
  function LastWrite(pc: Pc): Option<nat> {
    match pc
    case AwaitCancelPersist(op) => Some(op)
    case AwaitFailPersist(op) => Some(op)
    case AwaitFinalPersist(op, _) => Some(op)
    case _ => None
  }

  // The other writes a frame may await.
  function OpenWrite(pc: Pc): Option<nat> {
    match pc
    case AwaitStartingPersist(op) => Some(op)
    case AwaitRunningPersist(op) => Some(op)
    case AwaitEventPersist(op) => Some(op)
    case AwaitCatchPersist(op) => Some(op)
    case _ => None
  }

  function AwaitedWrite(pc: Pc): Option<nat> {
    if LastWrite(pc).Some? then LastWrite(pc) else OpenWrite(pc)
  }

  // Loading `job` shows run `i` as `core`.
  predicate Shows(job: Job, i: nat, core: RunCore) {
    i < |job.runs| && Core(RepairRun(job.runs[i])) == core
  }

  predicate DiskShows(q: Queue.Queue<Job>, i: nat, core: RunCore) {
    q.disk.Some? && Shows(q.disk.value, i, core)
  }

  // Every snapshot from `op` on shows the run, and so does the disk once `op` landed.
  ghost predicate Landing(q: Queue.Queue<Job>, op: nat, i: nat, core: RunCore) {
    && op < |q.ops|
    && (forall k :: op <= k < |q.ops| ==> Shows(q.ops[k].snapshot, i, core))
    && (q.ops[op].phase.Landed? ==> DiskShows(q, i, core))
  }

  // The disk and every write that may still land show the run.
  ghost predicate Kept(q: Queue.Queue<Job>, i: nat, core: RunCore) {
    && DiskShows(q, i, core)
    && (forall k :: 0 <= k < |q.ops| && !Queue.Settled(q.ops[k].phase) ==> Shows(q.ops[k].snapshot, i, core))
  }

  lemma LandingEnqueued(q: Queue.Queue<Job>, snapshot: Job, op: nat, i: nat, core: RunCore)
    requires Landing(q, op, i, core) && Shows(snapshot, i, core)
    ensures Landing(Queue.Enqueue(q, snapshot), op, i, core)
  {
    hide Shows;
  }

  lemma KeptEnqueued(q: Queue.Queue<Job>, snapshot: Job, i: nat, core: RunCore)
    requires Kept(q, i, core) && Shows(snapshot, i, core)
    ensures Kept(Queue.Enqueue(q, snapshot), i, core)
  {
    hide Shows;
  }

  lemma LandingBegins(q: Queue.Queue<Job>, snapshot: Job, i: nat, core: RunCore)
    requires Shows(snapshot, i, core)
    ensures Landing(Queue.Enqueue(q, snapshot), |q.ops|, i, core)
  {
    hide Shows;
  }

  lemma LandingAdvances(q: Queue.Queue<Job>, k: nat, ok: bool, op: nat, i: nat, core: RunCore)
    requires Queue.Linked(q) && Landing(q, op, i, core)
    ensures Landing(Queue.Advance(q, k, ok), op, i, core)
  {
    hide Shows;
    if Queue.Advance(q, k, ok) != q {
      Queue.AdvanceLinked(q, k, ok);
    }
    hide Queue.Linked;
    hide Queue.MayStart;
  }

  lemma KeptAdvances(q: Queue.Queue<Job>, k: nat, ok: bool, i: nat, core: RunCore)
    requires Queue.Linked(q) && Kept(q, i, core)
    ensures Kept(Queue.Advance(q, k, ok), i, core)
  {
    hide Shows;
    if Queue.Advance(q, k, ok) != q {
      Queue.AdvanceLinked(q, k, ok);
    }
    hide Queue.Linked;
    hide Queue.MayStart;
  }

  lemma QueueReleases(q: Queue.Queue<Job>, k: nat, op: nat, i: nat, core: RunCore)
    ensures Landing(q, op, i, core) ==> Landing(Queue.Release(q, k), op, i, core)
    ensures Kept(q, i, core) ==> Kept(Queue.Release(q, k), i, core)
  {
    hide Shows;
  }

  // The write landed, so whatever may land after it shows the run too.
  lemma LandedIsKept(q: Queue.Queue<Job>, op: nat, i: nat, core: RunCore)
    requires Queue.Linked(q) && Landing(q, op, i, core) && q.ops[op].phase.Landed?
    ensures Kept(q, i, core)
  {
    hide Shows;
    assert forall k :: 0 <= k < op ==> Queue.Settled(q.ops[k].phase);
  }

  // ----- The invariant -----

  ghost predicate RunTold(pc: Pc, q: Queue.Queue<Job>, i: nat, core: RunCore) {
    && (LastWrite(pc).Some? ==> Landing(q, LastWrite(pc).value, i, core))
    && (pc.Done? ==> Kept(q, i, core))
    && (OpenWrite(pc).Some? ==> OpenWrite(pc).value < |q.ops|)
  }

  ghost predicate Told(s: Sys) {
    && |s.tasks| == |s.job.runs|
    && forall i :: 0 <= i < |s.tasks| ==> RunTold(s.tasks[i].pc, s.queue, i, Core(s.job.runs[i]))
  }

  // At most one write was enqueued, and it shows the runs as they are now.
  predicate Enqueues(s: Sys, t: Sys) {
    t.queue == s.queue || (|t.queue.ops| > 0 &&
      var snapshot := t.queue.ops[|t.queue.ops| - 1].snapshot;
      t.queue == Queue.Enqueue(s.queue, snapshot) && snapshot.runs == t.job.runs)
  }

  // How a step that is not about the disk may treat the frame of run `i`.
  predicate Moves(s: Sys, t: Sys, i: nat) {
    && InRange(s, i) && InRange(t, i)
    && var pc, next := s.tasks[i].pc, t.tasks[i].pc;
      || (next == pc && (Terminal(s.job.runs[i].state) ==> Core(t.job.runs[i]) == Core(s.job.runs[i])))
      || (LastWrite(next) == Some(|s.queue.ops|) && t.queue == Queue.Enqueue(s.queue, t.job))
      || (next.Done? && LastWrite(pc).Some? && LastWrite(pc).value < |s.queue.ops|
        && s.queue.ops[LastWrite(pc).value].phase.Landed?
          && t.queue == s.queue && Core(t.job.runs[i]) == Core(s.job.runs[i]))
      || (LastWrite(next).None? && !next.Done? && (OpenWrite(next).Some? ==> OpenWrite(next).value < |t.queue.ops|))
  }

  lemma ClosingIsTerminal(s: Sys, i: nat)
    requires Inv(s) && InRange(s, i) && (LastWrite(s.tasks[i].pc).Some? || s.tasks[i].pc.Done?)
    ensures Terminal(s.job.runs[i].state)
    ensures Shows(s.job, i, Core(s.job.runs[i]))
  {
    TaskAt(s, i);
    hide Inv;
  }

  // A frame that stands where it stood, its record kept if it is closing.
  lemma StandsTold(q: Queue.Queue<Job>, r: Queue.Queue<Job>, snapshot: Job, pc: Pc, i: nat, core: RunCore)
    requires RunTold(pc, q, i, core) && r == Queue.Enqueue(q, snapshot) && Shows(snapshot, i, core)
    ensures RunTold(pc, r, i, core)
  {
    hide Landing;
    hide Kept;
    hide Shows;
    if LastWrite(pc).Some? { LandingEnqueued(q, snapshot, LastWrite(pc).value, i, core); }
    if pc.Done? { KeptEnqueued(q, snapshot, i, core); }
  }

  // A frame that awaits nothing final, or nothing any more, whatever its record.
  lemma OpenTold(q: Queue.Queue<Job>, r: Queue.Queue<Job>, pc: Pc, i: nat, core: RunCore, other: RunCore)
    requires LastWrite(pc).None? && !pc.Done?
    requires RunTold(pc, q, i, core) && |q.ops| <= |r.ops|
    ensures RunTold(pc, r, i, other)
  {
  }

  lemma ClosesTold(q: Queue.Queue<Job>, pc: Pc, next: Pc, i: nat, core: RunCore)
    requires Queue.Linked(q) && RunTold(pc, q, i, core)
    requires next.Done? && LastWrite(pc).Some? && q.ops[LastWrite(pc).value].phase.Landed?
    ensures RunTold(next, q, i, core)
  {
    LandedIsKept(q, LastWrite(pc).value, i, core);
    hide Landing;
    hide Kept;
    hide Queue.Linked;
  }

  // What the frame's record looks like in the snapshot the step took, if it took one.
  lemma ClosingShown(s: Sys, t: Sys, i: nat)
    requires Inv(t) && InRange(t, i) && Enqueues(s, t) && t.queue != s.queue
    requires LastWrite(t.tasks[i].pc).Some? || t.tasks[i].pc.Done?
    ensures Shows(t.queue.ops[|t.queue.ops| - 1].snapshot, i, Core(t.job.runs[i]))
  {
    ClosingIsTerminal(t, i);
    hide Inv;
    hide Core;
  }

  lemma MovesTold(s: Sys, t: Sys, i: nat)
    requires Inv(s) && Inv(t) && Moves(s, t, i) && Enqueues(s, t)
    requires RunTold(s.tasks[i].pc, s.queue, i, Core(s.job.runs[i]))
    ensures RunTold(t.tasks[i].pc, t.queue, i, Core(t.job.runs[i]))
  {
    assert Queue.Linked(s.queue);
    var pc, next, core := s.tasks[i].pc, t.tasks[i].pc, Core(t.job.runs[i]);
    var closing := LastWrite(next).Some? || next.Done?;
    if closing {
      if next == pc { ClosingIsTerminal(s, i); }
      if t.queue != s.queue { ClosingShown(s, t, i); }
    }
    hide Inv;
    hide Core;
    hide Shows;
    var snapshot := if t.queue != s.queue then t.queue.ops[|t.queue.ops| - 1].snapshot else s.job;
    if !closing {
      if next == pc { OpenTold(s.queue, t.queue, pc, i, Core(s.job.runs[i]), core); }
    } else if next == pc && t.queue != s.queue {
      StandsTold(s.queue, t.queue, snapshot, pc, i, core);
    } else if next != pc && LastWrite(next).Some? {
      LandingBegins(s.queue, snapshot, i, core);
    } else if next != pc {
      ClosesTold(s.queue, pc, next, i, core);
    }
    hide Queue.Linked;
    hide Landing;
    hide Kept;
  }

  // ----- Every step moves every frame so -----

  // The step belongs to another frame: this one stands, and a terminal run keeps its record.
  predicate Stays(s: Sys, t: Sys, i: nat) {
    && InRange(s, i) && InRange(t, i) && t.tasks[i].pc == s.tasks[i].pc
    && (Terminal(s.job.runs[i].state) ==> Core(t.job.runs[i]) == Core(s.job.runs[i]))
  }

  lemma SweepStays(s: Sys, from: nat, i: nat)
    requires InRange(s, i)
    ensures Stays(s, Sweep(s, from).0, i)
  {
    if Terminal(s.job.runs[i].state) {
      SweepSkips(s, from, i);
    }
  }

  lemma NoteStays(s: Sys, k: nat, threw: bool, i: nat)
    requires InRange(s, i) && k < |s.job.runs|
    ensures Stays(s, NoteError(s, k, threw), i) && NoteError(s, k, threw).cancels == s.cancels
    ensures NoteError(s, k, threw).job.runs[i].state == s.job.runs[i].state
  {
  }

  lemma StaysOn(s: Sys, t: Sys, u: Sys, i: nat)
    requires Stays(s, t, i) && Stays(t, u, i) && t.job.runs[i].state == s.job.runs[i].state
    ensures Stays(s, u, i)
  {
    hide Core;
  }

  lemma ResumeStays(s: Sys, c: nat, k: nat, threw: bool, i: nat)
    requires InRange(s, i) && c < |s.cancels| && k < |s.job.runs|
    ensures Stays(s, ResumeSweep(s, c, k, threw), i)
  {
    var t := NoteError(s, k, threw);
    var u := Sweep(t, k + 1).0;
    NoteStays(s, k, threw, i);
    SweepStays(t, k + 1, i);
    StaysOn(s, t, u, i);
    hide NoteError;
    hide Sweep;
    hide Core;
    hide Terminal;
  }

  lemma JobCancelStays(s: Sys, i: nat)
    requires InRange(s, i)
    ensures Stays(s, StartCancelJob(s), i)
  {
    hide Sweep;
    SweepStays(s.(job := s.job.(cancelRequested := true)), 0, i);
  }

  lemma RunCancelStays(s: Sys, k: nat, i: nat)
    requires InRange(s, i)
    ensures Stays(s, StartCancelRun(s, k), i)
  {
  }

  lemma AnswerStays(s: Sys, c: nat, threw: bool, i: nat)
    requires InRange(s, i)
    ensures Stays(s, AfterCancel(s, c, threw), i)
  {
    hide ResumeSweep;
    hide Core;
    hide Queue.Enqueue;
    if c < |s.cancels| && s.cancels[c].JobAwaitAdapter? && s.cancels[c].run < |s.job.runs| {
      ResumeStays(s, c, s.cancels[c].run, threw, i);
    }
  }

  lemma ClientStays(s: Sys, a: Action, i: nat)
    requires InRange(s, i) && (a.CancelJob? || a.CancelRun? || a.CancelReturns?)
    ensures Stays(s, Next(s, a), i)
  {
    hide StartCancelJob;
    hide StartCancelRun;
    hide AfterCancel;
    hide Stays;
    match a {
      case CancelJob => JobCancelStays(s, i);
      case CancelRun(k) => RunCancelStays(s, k, i);
      case CancelReturns(c, threw) => AnswerStays(s, c, threw, i);
    }
  }

  // A worker's step begins at most the next unclaimed run and touches no other.
  lemma WorkerBegins(s: Sys, w: nat, enabled: bool, i: nat)
    requires Inv(s) && i < |s.tasks|
    ensures var t := StepWorker(s, w, enabled);
      && InRange(t, i)
      && (Stays(s, t, i) || (s.tasks[i].pc.Unclaimed? && exists p :: t == Begin(s.(pool := p), i, enabled)))
  {
    LengthsAgree(s);
    WorkerClaims(s, w, enabled);
    var t := StepWorker(s, w, enabled);
    hide Inv;
    hide StepWorker;
    if t != s.(pool := t.pool) {
      BeginTouches(s.(pool := t.pool), s.pool.next, enabled);
    }
    hide Begin;
    hide Core;
  }

  // The step belongs to the frame of run `i`, or claims it.
  predicate Own(s: Sys, a: Action, i: nat) {
    Resumed(a) == Some(i) || (a.WorkerResumes? && InRange(s, i) && s.tasks[i].pc.Unclaimed?)
  }

  lemma OthersStay(s: Sys, a: Action, i: nat)
    requires Inv(s) && i < |s.tasks| && !a.Restart? && !Own(s, a, i)
    ensures Stays(s, Next(s, a), i)
  {
    LengthsAgree(s);
    if a.WorkerResumes? {
      WorkerBegins(s, a.w, a.enabled, i);
    } else {
      hide Inv;
      if a.CancelJob? || a.CancelRun? || a.CancelReturns? {
        ClientStays(s, a, i);
      } else if Background(a) {
        assert Next(s, a).tasks == s.tasks && Next(s, a).job.runs == s.job.runs;
      } else {
        Elsewhere(s, a, i);
      }
    }
  }

  lemma BeginMoves(s: Sys, p: Pool.Pool, i: nat, enabled: bool)
    requires InRange(s, i) && s.tasks[i].pc.Unclaimed?
    ensures Moves(s, Begin(s.(pool := p), i, enabled), i)
  {
    hide Core;
  }

  lemma PersistMoves(s: Sys, i: nat)
    requires InRange(s, i) && RunTold(s.tasks[i].pc, s.queue, i, Core(s.job.runs[i]))
    ensures Moves(s, AfterPersist(s, i), i)
  {
    hide Core;
    hide Kept;
    hide DiskShows;
  }

  lemma HealthMoves(s: Sys, i: nat, health: Health)
    requires InRange(s, i)
    ensures Moves(s, AfterHealth(s, i, health), i)
  {
    hide Core;
  }

  lemma SessionMoves(s: Sys, i: nat, ok: bool)
    requires InRange(s, i)
    ensures Moves(s, AfterSession(s, i, ok), i) && Moves(s, Catch(s, i, FromDisk), i)
  {
    hide Core;
  }

  lemma StreamMoves(s: Sys, i: nat, step: StreamStep)
    requires InRange(s, i)
    ensures Moves(s, AfterStream(s, i, step), i)
  {
    hide Core;
    hide Record;
  }

  lemma ArtifactMoves(s: Sys, i: nat, artifact: ArtifactStep)
    requires Awaits(s, i, AwaitArtifacts)
    ensures Moves(s, AfterArtifact(s, i, artifact), i)
  {
    hide Core;
    hide EndsOpen;
  }

  lemma CloseMoves(s: Sys, i: nat, rethrow: bool)
    requires InRange(s, i)
    ensures Moves(s, FinalPersist(s, i, rethrow), i)
  {
    hide Core;
  }

  lemma StandingMoves(s: Sys, i: nat)
    requires InRange(s, i)
    ensures Moves(s, s, i)
  {
  }

  lemma OwnMoves(s: Sys, a: Action, i: nat)
    requires InRange(s, i) && Resumed(a) == Some(i) && RunTold(s.tasks[i].pc, s.queue, i, Core(s.job.runs[i]))
    ensures Moves(s, Next(s, a), i)
  {
    hide AfterPersist;
    hide AfterHealth;
    hide AfterSession;
    hide AfterStream;
    hide AfterArtifact;
    hide Catch;
    hide FinalPersist;
    hide Core;
    hide RunTold;
    hide Moves;
    StandingMoves(s, i);
    match a {
      case PersistReturns(_) => PersistMoves(s, i);
      case HealthReturns(_, health) => HealthMoves(s, i, health);
      case SessionReturns(_, ok) => SessionMoves(s, i, ok);
      case StreamReturns(_, step) => StreamMoves(s, i, step);
      case IteratorReturns(_) => SessionMoves(s, i, true);
      case ArtifactReturns(_, artifact) => if Awaits(s, i, AwaitArtifacts) { ArtifactMoves(s, i, artifact); }
      case CloseReturns(_) => if s.tasks[i].pc.AwaitClose? { CloseMoves(s, i, s.tasks[i].pc.rethrow); }
    }
  }

  lemma StepMoves(s: Sys, a: Action, i: nat)
    requires Inv(s) && Told(s) && i < |s.tasks| && !a.Restart?
    ensures Moves(s, Next(s, a), i)
  {
    if !Own(s, a, i) {
      OthersStay(s, a, i);
    } else if a.WorkerResumes? {
      WorkerBegins(s, a.w, a.enabled, i);
      var t := StepWorker(s, a.w, a.enabled);
      if !Stays(s, t, i) {
        var p :| t == Begin(s.(pool := p), i, a.enabled);
        BeginMoves(s, p, i, a.enabled);
      }
    } else {
      hide Inv;
      OwnMoves(s, a, i);
    }
    hide Inv;
    hide Next;
    hide Core;
    hide RunTold;
  }

  lemma StepEnqueues(s: Sys, a: Action)
    requires !a.DiskWrite? && !a.WriteReturns? && !a.Restart?
    ensures Enqueues(s, Next(s, a))
  {
    if Background(a) {
      hide Verdict;
    } else {
      OuterFrame(s, a);
      hide Next;
    }
  }

  lemma QueueTold(s: Sys, a: Action, i: nat)
    requires Queue.Linked(s.queue) && InRange(s, i) && (a.DiskWrite? || a.WriteReturns?)
    requires RunTold(s.tasks[i].pc, s.queue, i, Core(s.job.runs[i]))
    ensures RunTold(s.tasks[i].pc, Next(s, a).queue, i, Core(s.job.runs[i]))
  {
    hide Queue.Linked;
    hide Landing;
    hide Kept;
    hide Core;
    var pc, core := s.tasks[i].pc, Core(s.job.runs[i]);
    var op := if LastWrite(pc).Some? then LastWrite(pc).value else 0;
    if a.WriteReturns? {
      QueueReleases(s.queue, a.op, op, i, core);
    } else {
      if LastWrite(pc).Some? { LandingAdvances(s.queue, a.op, a.ok, op, i, core); }
      if pc.Done? { KeptAdvances(s.queue, a.op, a.ok, i, core); }
    }
  }

  lemma RepairShows(job: Job, i: nat)
    requires i < |job.runs|
    ensures var fixed := Repair(job);
      i < |fixed.runs| && Shows(job, i, Core(fixed.runs[i])) && Shows(fixed, i, Core(fixed.runs[i]))
  {
  }

  lemma RestartTold(s: Sys, i: nat)
    requires s.queue.disk.Some? && i < |s.queue.disk.value.runs|
    ensures var t := AfterRestart(s); InRange(t, i) && RunTold(t.tasks[i].pc, t.queue, i, Core(t.job.runs[i]))
  {
    RepairShows(s.queue.disk.value, i);
    hide Shows;
    hide NeedsRepair;
  }

  lemma CountStep(s: Sys, a: Action)
    requires Inv(s)
    ensures |Next(s, a).tasks| == |s.tasks|
  {
    if a.Restart? {
    } else if Background(a) {
      hide Inv;
    } else {
      hide Inv;
      OuterFrame(s, a);
      hide Next;
    }
  }

  lemma RunToldAt(s: Sys, i: nat)
    requires Told(s) && i < |s.tasks|
    ensures InRange(s, i) && RunTold(s.tasks[i].pc, s.queue, i, Core(s.job.runs[i]))
  {
    hide RunTold;
    hide Core;
  }

  lemma OuterTold(s: Sys, a: Action, i: nat)
    requires Inv(s) && Told(s) && i < |s.tasks| && !a.DiskWrite? && !a.WriteReturns? && !a.Restart?
    ensures var t := Next(s, a); InRange(t, i) && RunTold(t.tasks[i].pc, t.queue, i, Core(t.job.runs[i]))
  {
    hide Inv;
    hide RunTold;
    hide Core;
    hide Next;
    hide Enqueues;
    RunToldAt(s, i);
    hide Told;
    NextInv(s, a);
    StepEnqueues(s, a);
    StepMoves(s, a, i);
    MovesTold(s, Next(s, a), i);
  }

  lemma DiskTold(s: Sys, a: Action, i: nat)
    requires Inv(s) && Told(s) && (a.DiskWrite? || a.WriteReturns? || a.Restart?)
    requires i < |Next(s, a).tasks|
    ensures var t := Next(s, a); InRange(t, i) && RunTold(t.tasks[i].pc, t.queue, i, Core(t.job.runs[i]))
  {
    assert Queue.Linked(s.queue);
    hide Inv;
    hide RunTold;
    hide Core;
    hide Queue.Linked;
    if a.Restart? && s.queue.disk.Some? {
      RestartTold(s, i);
    } else {
      RunToldAt(s, i);
      if !a.Restart? {
        QueueTold(s, a, i);
      }
    }
    hide Told;
  }

  lemma NextTold(s: Sys, a: Action)
    requires Inv(s) && Told(s)
    ensures Told(Next(s, a))
  {
    var t := Next(s, a);
    NextInv(s, a);
    LengthsAgree(t);
    CountStep(s, a);
    forall i | 0 <= i < |t.tasks|
      ensures RunTold(t.tasks[i].pc, t.queue, i, Core(t.job.runs[i]))
    {
      if a.DiskWrite? || a.WriteReturns? || a.Restart? {
        DiskTold(s, a, i);
      } else {
        OuterTold(s, a, i);
      }
    }
    hide Inv;
    hide RunTold;
    hide Core;
    hide Next;
  }

  lemma InitTold(n: nat, limit: int)
    ensures Told(Init(n, limit))
  {
  }

  lemma {:induction false} ExecTold(s: Sys, actions: seq<Action>)
    requires Inv(s) && Told(s)
    ensures Inv(Exec(s, actions)) && Told(Exec(s, actions))
    decreases |actions|
  {
    hide Inv;
    hide Told;
    hide Next;
    if actions != [] {
      NextInv(s, actions[0]);
      NextTold(s, actions[0]);
      ExecTold(Next(s, actions[0]), actions[1..]);
    }
  }

  lemma ReachableTold(n: nat, limit: int, actions: seq<Action>)
    requires n >= 1 && limit >= 1
    ensures Inv(Exec(Init(n, limit), actions)) && Told(Exec(Init(n, limit), actions))
  {
    InitInv(n, limit);
    InitTold(n, limit);
    ExecTold(Init(n, limit), actions);
  }

  // ----- A returned run -----

  // Run `i` is done with this record.
  predicate DoneAs(s: Sys, i: nat, core: RunCore) {
    InRange(s, i) && s.tasks[i].pc.Done? && Core(s.job.runs[i]) == core
  }

  lemma DoneOwn(s: Sys, a: Action, i: nat)
    requires InRange(s, i) && Finished(s.tasks[i].pc) && Own(s, a, i)
    ensures Next(s, a) == s
  {
  }

  lemma DoneRestart(s: Sys, i: nat)
    requires Inv(s) && Told(s) && i < |s.tasks| && s.tasks[i].pc.Done?
    ensures DoneAs(AfterRestart(s), i, Core(s.job.runs[i]))
  {
    assert Kept(s.queue, i, Core(s.job.runs[i]));
    hide Inv;
    hide Told;
    RepairShows(s.queue.disk.value, i);
  }

  lemma DoneStays(s: Sys, a: Action, i: nat)
    requires Inv(s) && Told(s) && i < |s.tasks| && s.tasks[i].pc.Done?
    ensures DoneAs(Next(s, a), i, Core(s.job.runs[i]))
  {
    TaskAt(s, i);
    if a.Restart? {
      DoneRestart(s, i);
    } else if Own(s, a, i) {
      hide Inv;
      DoneOwn(s, a, i);
    } else {
      OthersStay(s, a, i);
    }
    hide Inv;
    hide Next;
    hide Told;
    hide Core;
  }

  lemma {:induction false} DoneForever(s: Sys, actions: seq<Action>, i: nat)
    requires Inv(s) && Told(s) && i < |s.tasks| && s.tasks[i].pc.Done?
    ensures DoneAs(Exec(s, actions), i, Core(s.job.runs[i]))
    decreases |actions|
  {
    LengthsAgree(s);
    hide Inv;
    hide Told;
    hide Next;
    hide Core;
    if actions != [] {
      NextInv(s, actions[0]);
      NextTold(s, actions[0]);
      DoneStays(s, actions[0], i);
      DoneForever(Next(s, actions[0]), actions[1..], i);
    }
  }

  // A run whose executeRun has returned never changes again: whatever the other workers, later
  // cancels, failed writes, the commit, and any number of crashes and restarts do.
  lemma DoneRunNeverChanges(n: nat, limit: int, before: seq<Action>, after: seq<Action>, i: nat)
    requires n >= 1 && limit >= 1
    requires var s := Exec(Init(n, limit), before); i < |s.tasks| && s.tasks[i].pc.Done?
    ensures var s := Exec(Init(n, limit), before);
      i < |s.job.runs| && Terminal(s.job.runs[i].state) && DoneAs(Exec(s, after), i, Core(s.job.runs[i]))
  {
    ReachableTold(n, limit, before);
    var s := Exec(Init(n, limit), before);
    LengthsAgree(s);
    TaskAt(s, i);
    DoneForever(s, after, i);
  }

  // Once the pool resolved, no cancelJob, cancelRun, late answer, failed commit, crash or restart
  // changes any run, whether the verdict was published or not.
  lemma ResolvedRunsNeverChange(n: nat, limit: int, before: seq<Action>, after: seq<Action>)
    requires n >= 1 && limit >= 1
    requires var s := Exec(Init(n, limit), before); Resolved(s) || AllDone(s)
    ensures var s := Exec(Init(n, limit), before); SameCores(Exec(s, after).job.runs, s.job.runs)
  {
    ReachableTold(n, limit, before);
    var s := Exec(Init(n, limit), before);
    var t := Exec(s, after);
    if Resolved(s) {
      ResolvedIsDone(s);
    }
    LengthsAgree(s);
    ExecTold(s, after);
    LengthsAgree(t);
    CountKept(s, after);
    hide Inv;
    hide Told;
    forall i | 0 <= i < |s.tasks|
      ensures Core(t.job.runs[i]) == Core(s.job.runs[i])
    {
      DoneForever(s, after, i);
    }
  }

  lemma {:induction false} CountKept(s: Sys, actions: seq<Action>)
    requires Inv(s)
    ensures |Exec(s, actions).tasks| == |s.tasks|
    decreases |actions|
  {
    hide Inv;
    hide Next;
    if actions != [] {
      NextInv(s, actions[0]);
      CountStep(s, actions[0]);
      CountKept(Next(s, actions[0]), actions[1..]);
    }
  }

  // The same without a restart for every returned frame, also one that threw.
  lemma {:induction false} ReturnedRunKept(s: Sys, actions: seq<Action>, i: nat)
    requires Inv(s) && NoRestart(actions) && i < |s.tasks| && i < |s.job.runs|
    requires Finished(s.tasks[i].pc) && Terminal(s.job.runs[i].state)
    ensures var t := Exec(s, actions);
      InRange(t, i) && t.tasks[i].pc == s.tasks[i].pc && Core(t.job.runs[i]) == Core(s.job.runs[i])
    decreases |actions|
  {
    hide Inv;
    hide Next;
    if actions != [] {
      NextInv(s, actions[0]);
      if Own(s, actions[0], i) {
        DoneOwn(s, actions[0], i);
      } else {
        OthersStay(s, actions[0], i);
      }
      assert NoRestart(actions[1..]);
      ReturnedRunKept(Next(s, actions[0]), actions[1..], i);
    }
  }
}
