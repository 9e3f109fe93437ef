// The whole stream of a process-backed run, event by event, and what its calls answer.
module ProcessStreams {
  import opened Wrappers
  import opened Events
  import opened ChildProcess
  import opened ProcessModel
  import opened ProcessTheorems

  // The stream of a run that succeeded; `usage` is what parseOutput reported.
  function Result(usage: bool): seq<EventType> {
    [RunStarted, MessageCompleted, ArtifactCreated] + (if usage then [UsageUpdated] else []) + [RunSucceeded]
  }

  // A finished stream: nothing between the start and a failure, or the whole result and its artifact.
  predicate Whole(kinds: seq<EventType>, notes: seq<Note>, artifacts: nat) {
    || (|kinds| == 2 && kinds[0] == RunStarted && TerminalType(kinds[1]) && kinds[1] != RunSucceeded && artifacts == 0)
    || exists usage :: ParseSeen(Parsed(true, usage)) in notes && kinds == Result(usage) && artifacts == 1
  }

  predicate Produced(pc: Pc, kinds: seq<EventType>, notes: seq<Note>, artifacts: nat) {
    match pc
    case Created => kinds == [] && artifacts == 0
    case AtStarted => kinds == [RunStarted] && artifacts == 0
    case AwaitExit => kinds == [RunStarted] && artifacts == 0
    case AwaitParse => kinds == [RunStarted] && artifacts == 0
    case AtMessage(usage) =>
      kinds == [RunStarted, MessageCompleted] && ParseSeen(Parsed(true, usage)) in notes && artifacts == 0
    case AtArtifact(usage) =>
      && kinds == [RunStarted, MessageCompleted, ArtifactCreated]
      && ParseSeen(Parsed(true, usage)) in notes && artifacts == 1
    case AtUsage =>
      && kinds == [RunStarted, MessageCompleted, ArtifactCreated, UsageUpdated]
      && ParseSeen(Parsed(true, true)) in notes && artifacts == 1
    case AtTerminal => Whole(kinds, notes, artifacts)
    case Finished => Whole(kinds, notes, artifacts)
    case Threw => (kinds == [] || kinds == [RunStarted]) && artifacts == 0
    case Abandoned => true
  }

  ghost predicate Producing(s: State) {
    Produced(s.pc, Kinds(s.emitter), s.notes, s.artifacts)
  }

  lemma KindsEmit(e: Emitter, id: nat, kind: EventType)
    ensures Kinds(Emit(e, id, kind)) == Kinds(e) + [kind]
  {
  }

  lemma NotedProduces(pc: Pc, kinds: seq<EventType>, notes: seq<Note>, artifacts: nat, note: Note)
    requires Produced(pc, kinds, notes, artifacts)
    ensures Produced(pc, kinds, notes + [note], artifacts)
  {
  }

  lemma PullProduces(s: State, id: nat, ok: bool)
    requires Producing(s)
    ensures Producing(OnPull(s, id, ok))
  {
    var t := OnPull(s, id, ok);
    match s.pc {
      case Created => KindsEmit(s.emitter, id, RunStarted);
      case AtMessage(_) => KindsEmit(s.emitter, id, ArtifactCreated);
      case AtArtifact(usage) =>
        KindsEmit(s.emitter, id, if usage then UsageUpdated else RunSucceeded);
        assert !usage ==> Kinds(t.emitter) == Result(false);
      case AtUsage =>
        KindsEmit(s.emitter, id, RunSucceeded);
        assert Kinds(t.emitter) == Result(true);
      case _ =>
    }
    hide Kinds;
    hide Emit;
  }

  lemma ExitProduces(s: State, id: nat)
    requires Producing(s)
    ensures Producing(OnExit(s, id))
  {
    NotedProduces(s.pc, Kinds(s.emitter), s.notes, s.artifacts, Observed);
    KindsEmit(s.emitter, id, RunCancelled);
    KindsEmit(s.emitter, id, RunTimedOut);
    KindsEmit(s.emitter, id, RunFailed);
    hide Kinds;
    hide Emit;
  }

  lemma ParseProduces(s: State, id: nat, parse: Parse)
    requires Producing(s)
    ensures Producing(OnParse(s, id, parse))
  {
    NotedProduces(s.pc, Kinds(s.emitter), s.notes, s.artifacts, ParseSeen(parse));
    KindsEmit(s.emitter, id, RunFailed);
    KindsEmit(s.emitter, id, MessageCompleted);
    hide Kinds;
    hide Emit;
  }

  // A step that is not the generator's takes notes at most.
  lemma OtherProduces(s: State, a: Action)
    requires Producing(s) && !a.Pull? && !a.ExitResumes? && !a.ParseResumes?
    ensures Producing(Next(s, a))
  {
    forall note
      ensures Produced(s.pc, Kinds(s.emitter), s.notes + [note], s.artifacts)
    {
      NotedProduces(s.pc, Kinds(s.emitter), s.notes, s.artifacts, note);
    }
    hide Whole;
    hide Kinds;
    hide Collect;
    hide Close;
  }

  lemma {:induction false} ExecProduces(s: State, actions: seq<Action>)
    requires Producing(s)
    ensures Producing(Exec(s, actions))
    decreases |actions|
  {
    hide Producing;
    if actions != [] {
      match actions[0] {
        case Pull(id, ok) => PullProduces(s, id, ok);
        case ExitResumes(id) => ExitProduces(s, id);
        case ParseResumes(id, parse) => ParseProduces(s, id, parse);
        case _ => OtherProduces(s, actions[0]);
      }
      ExecProduces(Next(s, actions[0]), actions[1..]);
    }
    hide OnPull;
    hide OnExit;
    hide OnParse;
  }

  // A fully consumed stream is run.started and the failure, or run.started, the message, its one
  // artifact, the usage exactly if it was reported, and run.succeeded: in this order, nothing else.
  lemma StreamIsWhole(cap: nat, binding: Binding, actions: seq<Action>)
    requires Exec(Init(cap, binding), actions).pc.Finished?
    ensures var s := Exec(Init(cap, binding), actions); Whole(Kinds(s.emitter), s.notes, s.artifacts)
  {
    assert Producing(Init(cap, binding)) by { assert Kinds(Init(cap, binding).emitter) == []; }
    ExecProduces(Init(cap, binding), actions);
    hide Exec;
  }

  // ----- What cancel and close answer -----

  // An answer says that it cancelled or that the run was over, never both; the first only with the
  // request on record, the second only with a verdict.
  predicate AnswerTold(s: State, call: Call) {
    match call.stage
    case Answered(r) =>
      && r.cancelled != r.alreadyTerminal
      && (r.alreadyTerminal ==> r.confirmed && s.terminal.Some?) && (r.cancelled ==> s.cancelRequested)
    case Killing => s.cancelRequested && s.exit.Owned?
    case AwaitingExit => s.cancelRequested && s.exit.Owned?
    case Returned => call.byClose && s.closed
  }

  predicate AnswersTold(s: State) {
    forall c :: 0 <= c < |s.calls| ==> AnswerTold(s, s.calls[c])
  }

  // What the answers rest on is never taken back.
  predicate Firm(s: State, t: State) {
    && (s.terminal.Some? ==> t.terminal.Some?) && (s.cancelRequested ==> t.cancelRequested)
    && (s.exit.Owned? ==> t.exit.Owned?) && (s.closed ==> t.closed)
  }

  lemma FirmAnswers(s: State, t: State)
    requires AnswersTold(s) && Firm(s, t) && t.calls == s.calls
    ensures AnswersTold(t)
  {
  }

  lemma GeneratorFirm(s: State, id: nat, ok: bool, parse: Parse)
    ensures (s.exit.Owned? ==> s.pc != AtStarted) ==>
      Firm(s, OnPull(s, id, ok)) && OnPull(s, id, ok).calls == s.calls
    ensures Firm(s, OnExit(s, id)) && OnExit(s, id).calls == s.calls
    ensures Firm(s, OnParse(s, id, parse)) && OnParse(s, id, parse).calls == s.calls
  {
    hide Emit;
  }

  lemma ChildFirm(s: State, a: Action)
    requires a.ConsumerReturns? || a.ChunkArrives? || a.TimerFires? || a.ErrorEmitted? || a.CloseEmitted?
    ensures Firm(s, Next(s, a)) && Next(s, a).calls == s.calls
  {
    hide Collect;
    hide Close;
  }

  lemma CallAnswers(s: State, a: Action)
    requires AnswersTold(s) && (a.Cancel? || a.CloseSession? || a.CallResumes?)
    ensures AnswersTold(Next(s, a))
  {
  }

  lemma StepAnswers(s: State, a: Action)
    requires Inv(s) && AnswersTold(s)
    ensures AnswersTold(Next(s, a))
  {
    assert s.exit.Owned? ==> s.pc != AtStarted;
    hide Inv;
    hide AnswersTold;
    hide Firm;
    hide OnPull;
    hide OnExit;
    hide OnParse;
    match a {
      case Pull(id, ok) => GeneratorFirm(s, id, ok, Nothing); FirmAnswers(s, OnPull(s, id, ok));
      case ExitResumes(id) => GeneratorFirm(s, id, true, Nothing); FirmAnswers(s, OnExit(s, id));
      case ParseResumes(id, parse) => GeneratorFirm(s, id, true, parse); FirmAnswers(s, OnParse(s, id, parse));
      case Cancel => CallAnswers(s, a);
      case CloseSession => CallAnswers(s, a);
      case CallResumes(_) => CallAnswers(s, a);
      case _ => ChildFirm(s, a); FirmAnswers(s, Next(s, a));
    }
  }

  lemma {:induction false} ExecAnswers(s: State, actions: seq<Action>)
    requires Inv(s) && AnswersTold(s)
    ensures AnswersTold(Exec(s, actions))
    decreases |actions|
  {
    hide Inv;
    hide Next;
    hide AnswersTold;
    if actions != [] {
      NextKeeps(s, actions[0]);
      StepAnswers(s, actions[0]);
      ExecAnswers(Next(s, actions[0]), actions[1..]);
    }
  }

  // In every reachable state: each answer given so far is one of the two kinds; and a call that
  // awaits the exit answers cancelled and confirmed as soon as the child has emitted close, and
  // never anything else.
  lemma CallsAnswerTruly(cap: nat, binding: Binding, actions: seq<Action>, c: nat)
    requires c < |Exec(Init(cap, binding), actions).calls|
    ensures var s := Exec(Init(cap, binding), actions); var t := Next(s, CallResumes(c));
      && AnswerTold(s, s.calls[c])
      && (s.calls[c].stage.AwaitingExit? && ChildClosed(s) ==>
           c < |t.calls| && t.calls[c].stage == Answered(CancelResult(true, true, false)))
      && (!s.calls[c].stage.Answered? && c < |t.calls| && t.calls[c].stage.Answered? ==>
           t.calls[c].stage.result == CancelResult(true, true, false))
  {
    var s := Exec(Init(cap, binding), actions);
    assert AnswersTold(Init(cap, binding));
    Reachable(cap, binding, []);
    ExecAnswers(Init(cap, binding), actions);
    Reachable(cap, binding, actions);
    if ChildClosed(s) {
      ClosedOutcome(s);
    }
    hide Inv;
    hide Exec;
  }

  lemma ClosedOutcome(s: State)
    requires Inv(s) && ChildClosed(s)
    ensures s.exit.child.outcome.value.closed
  {
    OutcomeTold(s.notes, s.cap);
    hide Told;
  }

  // ----- A closed session -----

  lemma ClosedStep(s: State, a: Action)
    requires s.closed && s.pc.Created? && s.exit.Unset?
    ensures var t := Next(s, a);
      t.closed && (t.pc.Created? || t.pc.Threw? || t.pc.Abandoned?) && t.exit.Unset? && t.emitter == s.emitter
  {
  }

  lemma OverStep(s: State, a: Action)
    requires s.closed && (s.pc.Threw? || s.pc.Abandoned?) && s.exit.Unset?
    ensures var t := Next(s, a); t.closed && t.pc == s.pc && t.exit.Unset? && t.emitter == s.emitter
  {
  }

  // A session that was closed before its run began never yields an event and never spawns a child.
  lemma {:induction false} ClosedNeverBegins(s: State, actions: seq<Action>)
    requires s.closed && (s.pc.Created? || s.pc.Threw? || s.pc.Abandoned?) && s.exit.Unset?
    ensures var t := Exec(s, actions); t.exit.Unset? && t.emitter == s.emitter
    decreases |actions|
  {
    if actions != [] {
      if s.pc.Created? { ClosedStep(s, actions[0]); } else { OverStep(s, actions[0]); }
      hide Next;
      ClosedNeverBegins(Next(s, actions[0]), actions[1..]);
    }
  }

  // Close, in any state: a run that has begun and has no verdict is cancelled first, and the session
  // stays open until that call is resumed; any other session is marked closed and left as it is.
  lemma CloseCancelsFirst(s: State)
    ensures var t := Next(s, CloseSession);
      if s.terminal.None? && !s.exit.Unset? then
        && t.cancelRequested && t.closed == s.closed && |t.calls| == |s.calls| + 1
        && t == s.(cancelRequested := true, notes := s.notes + [CancelAccepted], calls := t.calls)
        && t.calls[..|s.calls|] == s.calls && t.calls[|s.calls|].byClose && !t.calls[|s.calls|].stage.Returned?
      else t == s.(closed := true)
  {
  }

  // Closing between run.started and the spawn comes too late: the next pull spawns the child of a
  // session that is closed, and nothing was cancelled.
  lemma ClosedSessionStillSpawns(cap: nat, binding: Binding)
    ensures var s := Exec(Init(cap, binding), [Pull(0, true), CloseSession, Pull(1, true)]);
      s.closed && s.exit.Owned? && !s.cancelRequested && s.calls == []
  {
    var a := [Pull(0, true), CloseSession, Pull(1, true)];
    var s0 := Init(cap, binding);
    var s1 := Next(s0, a[0]);
    var s2 := Next(s1, a[1]);
    var s3 := Next(s2, a[2]);
    assert s1.pc == AtStarted && s2.closed && s3.exit.Owned?;
    hide Next;
    Chain(s0, a, [s0, s1, s2, s3]);
  }
}
