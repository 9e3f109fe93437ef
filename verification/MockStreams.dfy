// The whole stream of a mock run, event by event, and what its commands leave behind.
module MockStreams {
  import opened Wrappers
  import opened Events
  import opened MockModel
  import opened MockTheorems

  function Asked(): seq<EventType> {
    [RunStarted, ApprovalRequested, WaitingApproval]
  }

  // Up to the point where the prompt itself is worked on.
  function Opening(text: string): seq<EventType> {
    if AsksApproval(text) then Asked() + [ApprovalDecided] else [RunStarted]
  }

  // The stream of a finished run, from the prompt, the winner of the race and the verdict.
  function Whole(text: string, winner: Option<Winner>, verdict: EventType): seq<EventType> {
    if AsksApproval(text) && winner == Some(ByCancel) then Asked() + [CancelRequested, RunCancelled]
    else if AsksApproval(text) && winner == Some(ByDecision(Deny)) then Opening(text) + [RunFailed]
    else if Holds(text) then Opening(text) + [Progress, CancelRequested, RunCancelled]
    else if verdict == RunCancelled then Opening(text) + [CancelRequested, RunCancelled]
    else Opening(text) + [MessageCompleted, ArtifactCreated, UsageUpdated, RunSucceeded]
  }

  // Approve or deny, as the race was decided.
  predicate Filed(text: string, winner: Option<Winner>, pending: Option<Approval>) {
    AsksApproval(text) && winner.Some? && winner.value.ByDecision? ==>
      pending.Some? && pending.value.status == if winner.value.decision.Approve? then Approved else Denied
  }

  ghost predicate Produced(
    pc: Pc, text: string, kinds: seq<EventType>, notes: seq<Note>, pending: Option<Approval>, artifacts: nat)
  {
    var winner := RaceWinner(notes);
    match pc
    case NotStarted => kinds == [] && artifacts == 0
    case Created => kinds == [] && artifacts == 0
    case AtStarted => kinds == [RunStarted] && artifacts == 0
    case AtRequested => kinds == Asked()[..2] && artifacts == 0
    case AtWaiting => kinds == Asked() && artifacts == 0
    case AwaitRace(_) => kinds == Asked() && artifacts == 0
    case AtDecided(_) => kinds == Asked() + [ApprovalDecided] && artifacts == 0
    case AtProgress => kinds == Opening(text) + [Progress] && artifacts == 0 && Filed(text, winner, pending)
    case AwaitCancel => kinds == Opening(text) + [Progress] && artifacts == 0 && Filed(text, winner, pending)
    case AtCancelRequested =>
      kinds + [RunCancelled] == Whole(text, winner, RunCancelled) && artifacts == 0 && Filed(text, winner, pending)
    case AtMessage =>
      && kinds == Opening(text) + [MessageCompleted] && artifacts == 0 && Filed(text, winner, pending)
    case AtArtifact =>
      && kinds == Opening(text) + [MessageCompleted, ArtifactCreated] && artifacts == 1
      && Filed(text, winner, pending)
    case AtUsage =>
      && kinds == Opening(text) + [MessageCompleted, ArtifactCreated, UsageUpdated] && artifacts == 1
      && Filed(text, winner, pending)
    case AtTerminal(kind) => Finishes(text, kinds, notes, pending, artifacts, kind)
    case Finished => kinds != [] && Finishes(text, kinds, notes, pending, artifacts, kinds[|kinds| - 1])
    case Abandoned => true
  }

  ghost predicate Finishes(
    text: string, kinds: seq<EventType>, notes: seq<Note>, pending: Option<Approval>, artifacts: nat, kind: EventType)
  {
    && kinds == Whole(text, RaceWinner(notes), kind) && Filed(text, RaceWinner(notes), pending)
    && artifacts == (if kind == RunSucceeded then 1 else 0)
  }

  ghost predicate Producing(s: State) {
    Produced(s.pc, s.text, Kinds(s.emitter), s.notes, s.pending, s.artifacts)
  }

  lemma KindsEmit(e: Emitter, id: nat, kind: EventType)
    ensures Kinds(Emit(e, id, kind)) == Kinds(e) + [kind]
  {
  }

  // Past the race its winner is known.
  predicate Past(pc: Pc) {
    pc.AtProgress? || pc.AwaitCancel? || pc.AtCancelRequested? || pc.AtMessage? || pc.AtArtifact? || pc.AtUsage?
    || pc.AtTerminal? || pc.Finished?
  }

  lemma WinnerKnown(s: State)
    requires Inv(s) && Past(s.pc)
    ensures AsksApproval(s.text) ==> RaceWinner(s.notes).Some?
  {
    hide RaceWinner;
    hide CheckAt;
    hide Includes;
    hide Streams;
    hide FlagsTold;
    hide Guarded;
  }

  // Nothing of the stream depends on notes taken after the race was won.
  lemma NotedProduces(s: State, note: Note)
    requires Inv(s) && Producing(s)
    ensures Produced(s.pc, s.text, Kinds(s.emitter), s.notes + [note], s.pending, s.artifacts)
  {
    if Past(s.pc) {
      WinnerKnown(s);
    }
    WinnerAppended(s.notes, note);
    NotedSame(s.pc, s.text, Kinds(s.emitter), s.notes, s.notes + [note], s.pending, s.artifacts);
    hide Inv;
    hide RaceWinner;
    hide Includes;
    hide Produced;
    hide Kinds;
  }

  lemma NotedSame(
    pc: Pc, text: string, kinds: seq<EventType>, a: seq<Note>, b: seq<Note>, pending: Option<Approval>, artifacts: nat)
    requires Produced(pc, text, kinds, a, pending, artifacts)
    requires Past(pc) && AsksApproval(text) ==> RaceWinner(b) == RaceWinner(a)
    ensures Produced(pc, text, kinds, b, pending, artifacts)
  {
    hide RaceWinner;
    hide AsksApproval;
    hide Holds;
  }

  // The prompt is worked on: hold, the last look at the cancel flag, or the message.
  lemma ProceedProduces(s: State, id: nat)
    requires Kinds(s.emitter) == Opening(s.text) && s.artifacts == 0
    requires Filed(s.text, RaceWinner(s.notes), s.pending)
    requires AsksApproval(s.text) ==> RaceWinner(s.notes) == Some(ByDecision(Approve))
    ensures Producing(Proceed(s, id))
  {
    hide Includes;
    hide Opening;
    WinnerAppended(s.notes, Checked);
    hide RaceWinner;
    KindsEmit(s.emitter, id, Progress);
    KindsEmit(s.emitter, id, CancelRequested);
    KindsEmit(s.emitter, id, MessageCompleted);
    hide Kinds;
    hide Emit;
    assert Opening(s.text) + [Progress, CancelRequested] == Opening(s.text) + [Progress] + [CancelRequested];
    assert Opening(s.text) + [CancelRequested, RunCancelled] == Opening(s.text) + [CancelRequested] + [RunCancelled];
  }

  lemma DecidedProduces(s: State, id: nat, decision: Decision)
    requires Inv(s) && Producing(s) && s.pc == AtDecided(decision)
    ensures Producing(AfterDecided(s, id, decision))
  {
    assert AsksApproval(s.text) && s.pending.Some? && RaceWinner(s.notes) == Some(ByDecision(decision));
    hide Inv;
    hide Includes;
    hide RaceWinner;
    KindsEmit(s.emitter, id, RunFailed);
    hide Kinds;
    hide Emit;
    if decision.Approve? {
      ProceedProduces(s.(pending := Some(s.pending.value.(status := Approved))), id);
    }
    hide Proceed;
  }

  lemma StartProduces(s: State, id: nat, approvalId: nat)
    requires Inv(s) && Producing(s) && s.pc.AtStarted?
    ensures Producing(AfterStarted(s, id, approvalId))
  {
    assert s.pending.None?;
    hide Inv;
    hide Includes;
    hide RaceWinner;
    KindsEmit(s.emitter, id, ApprovalRequested);
    hide Kinds;
    hide Emit;
    if !AsksApproval(s.text) {
      ProceedProduces(s, id);
    }
    hide Proceed;
  }

  // The verdict of a message is success, so nothing stood in its way.
  lemma ResultCleared(s: State)
    requires Inv(s) && (s.pc.AtMessage? || s.pc.AtArtifact? || s.pc.AtUsage?)
    ensures Whole(s.text, RaceWinner(s.notes), RunSucceeded) ==
      Opening(s.text) + [MessageCompleted, ArtifactCreated, UsageUpdated, RunSucceeded]
  {
    assert Verdict(s.text, s.notes) == Some(RunSucceeded);
    hide Inv;
    hide RaceWinner;
    hide Includes;
    hide CheckAt;
    hide Opening;
  }

  lemma ResultSteps(o: seq<EventType>)
    ensures o + [MessageCompleted] + [ArtifactCreated] == o + [MessageCompleted, ArtifactCreated]
    ensures o + [MessageCompleted, ArtifactCreated] + [UsageUpdated] ==
      o + [MessageCompleted, ArtifactCreated, UsageUpdated]
    ensures o + [MessageCompleted, ArtifactCreated, UsageUpdated] + [RunSucceeded] ==
      o + [MessageCompleted, ArtifactCreated, UsageUpdated, RunSucceeded]
  {
  }

  lemma ResultProduces(s: State, id: nat)
    requires Inv(s) && Producing(s) && (s.pc.AtMessage? || s.pc.AtArtifact? || s.pc.AtUsage?)
    ensures Producing(OnPull(s, id, 0))
  {
    hide Inv;
    hide Whole;
    hide Opening;
    hide Filed;
    hide RaceWinner;
    hide Kinds;
    hide Emit;
    ResultCleared(s);
    KindsEmit(s.emitter, id, ArtifactCreated);
    KindsEmit(s.emitter, id, UsageUpdated);
    KindsEmit(s.emitter, id, RunSucceeded);
    ResultSteps(Opening(s.text));
  }

  lemma QuietProduces(s: State, id: nat)
    requires Inv(s) && Producing(s)
    ensures s.pc.Created? ==> Producing(Yield(s, id, RunStarted, AtStarted))
    ensures s.pc.AtRequested? ==> Producing(Yield(s, id, WaitingApproval, AtWaiting))
    ensures s.pc.AtCancelRequested? ==> Producing(Yield(s, id, RunCancelled, AtTerminal(RunCancelled)))
    ensures s.pc.AtProgress? ==> Producing(s.(pc := AwaitCancel))
  {
    hide Inv;
    hide Whole;
    hide Opening;
    hide Filed;
    hide RaceWinner;
    hide Kinds;
    hide Emit;
    KindsEmit(s.emitter, id, RunStarted);
    KindsEmit(s.emitter, id, WaitingApproval);
    KindsEmit(s.emitter, id, RunCancelled);
  }

  lemma EndProduces(s: State, kind: EventType)
    requires Inv(s) && Producing(s) && s.pc == AtTerminal(kind)
    ensures Producing(s.(terminal := Some(kind), pc := Finished))
  {
    hide Inv;
    hide Finishes;
    hide Kinds;
    TerminalLast(s, kind);
  }

  lemma RaceEntered(s: State)
    requires Inv(s) && Producing(s) && s.pc.AtWaiting?
    ensures Producing(EnterRace(s))
  {
    hide Inv;
    hide RaceWinner;
    hide Kinds;
  }

  lemma PullProduces(s: State, id: nat, approvalId: nat)
    requires Inv(s) && Producing(s)
    ensures Producing(OnPull(s, id, approvalId))
  {
    hide Inv;
    hide Producing;
    hide Yield;
    hide EnterRace;
    hide AfterStarted;
    hide AfterDecided;
    QuietProduces(s, id);
    match s.pc {
      case AtStarted => StartProduces(s, id, approvalId);
      case AtWaiting => RaceEntered(s);
      case AtDecided(decision) => DecidedProduces(s, id, decision);
      case AtMessage => ResultProduces(s, id);
      case AtArtifact => ResultProduces(s, id);
      case AtUsage => ResultProduces(s, id);
      case AtTerminal(kind) => EndProduces(s, kind);
      case _ =>
    }
  }

  lemma TerminalLast(s: State, kind: EventType)
    requires Inv(s) && s.pc == AtTerminal(kind)
    ensures Kinds(s.emitter) != [] && Kinds(s.emitter)[|Kinds(s.emitter)| - 1] == kind
  {
    hide Stands;
    hide FlagsTold;
    hide Guarded;
    hide Numbered;
    hide Kinds;
  }

  lemma RaceProduces(s: State, id: nat)
    requires Inv(s) && Producing(s)
    ensures Producing(OnRace(s, id))
  {
    if s.pc.AwaitRace? {
      assert RaceWinner(s.notes) == s.pc.winner && AsksApproval(s.text);
    }
    hide Inv;
    hide RaceWinner;
    hide Includes;
    hide Opening;
    KindsEmit(s.emitter, id, CancelRequested);
    KindsEmit(s.emitter, id, ApprovalDecided);
    hide Kinds;
    hide Emit;
    assert Asked() + [CancelRequested] + [RunCancelled] == Asked() + [CancelRequested, RunCancelled];
  }

  lemma HoldProduces(s: State, id: nat)
    requires Inv(s) && Producing(s)
    ensures Producing(OnHold(s, id))
  {
    if s.pc.AwaitCancel? {
      assert Holds(s.text) && Cleared(s.text, s.notes);
    }
    hide Inv;
    hide RaceWinner;
    hide Includes;
    hide Opening;
    hide Filed;
    KindsEmit(s.emitter, id, CancelRequested);
    hide Kinds;
    hide Emit;
    var o := Opening(s.text);
    assert o + [Progress] + [CancelRequested] + [RunCancelled] == o + [Progress, CancelRequested, RunCancelled];
  }

  // A settled race, and a resolved deferred, are no part of the stream.
  lemma SettledSame(
    pc: Pc, winner: Winner, text: string, kinds: seq<EventType>, notes: seq<Note>, a: Option<Approval>,
    b: Option<Approval>, artifacts: nat)
    requires Produced(pc, text, kinds, notes, a, artifacts)
    requires a.Some? == b.Some? && (a.Some? ==> b.value.status == a.value.status)
    ensures Produced(Settle(pc, winner), text, kinds, notes, b, artifacts)
    ensures Produced(pc, text, kinds, notes, b, artifacts)
  {
    hide RaceWinner;
    hide Whole;
    hide Opening;
    hide AsksApproval;
  }

  lemma DecideProduces(s: State, approvalId: nat, decision: Option<Decision>)
    requires Inv(s) && Producing(s)
    ensures Producing(OnDecide(s, approvalId, decision))
  {
    hide Inv;
    hide Produced;
    hide Kinds;
    if Deciding(s, approvalId, decision) {
      var note := Accepted(decision.value);
      NotedProduces(s, note);
      var resolved := Some(s.pending.value.(resolved := decision));
      SettledSame(s.pc, ByDecision(decision.value), s.text, Kinds(s.emitter), s.notes + [note], s.pending, resolved,
        s.artifacts);
    }
  }

  lemma CancelProduces(s: State)
    requires Inv(s) && Producing(s)
    ensures Producing(OnCancel(s))
  {
    hide Inv;
    hide Produced;
    hide Kinds;
    NotedProduces(s, CancelAccepted);
    SettledSame(s.pc, ByCancel, s.text, Kinds(s.emitter), s.notes + [CancelAccepted], s.pending, s.pending,
      s.artifacts);
  }

  lemma StartedProduces(s: State, text: string)
    requires Producing(s)
    ensures Producing(Start(s, text)) && Producing(s.(pc := Abandoned))
  {
    hide Kinds;
  }

  // Accepted commands take a note, settle the race, and file nothing.
  lemma CommandProduces(s: State, a: Action)
    requires Inv(s) && Producing(s)
    requires a.Decide? || a.Steer? || a.Cancel? || a.CloseSession? || a.CloseResumes? || a.ConsumerReturns?
      || a.StartRun?
    ensures Producing(Next(s, a))
  {
    hide Inv;
    hide Produced;
    hide Kinds;
    hide OnDecide;
    hide OnCancel;
    hide Start;
    match a {
      case StartRun(text) => StartedProduces(s, text);
      case ConsumerReturns => StartedProduces(s, "");
      case Decide(approvalId, decision) => DecideProduces(s, approvalId, decision);
      case Cancel => CancelProduces(s);
      case CloseSession => CancelProduces(s);
      case _ =>
    }
  }

  lemma StepProduces(s: State, a: Action)
    requires Inv(s) && Producing(s)
    ensures Producing(Next(s, a))
  {
    hide Inv;
    hide Producing;
    match a {
      case Pull(id, approvalId) => PullProduces(s, id, approvalId);
      case RaceResumes(id) => RaceProduces(s, id);
      case HoldResumes(id) => HoldProduces(s, id);
      case _ => CommandProduces(s, a);
    }
    hide OnPull;
    hide OnRace;
    hide OnHold;
  }

  lemma {:induction false} ExecProduces(s: State, actions: seq<Action>)
    requires Inv(s) && Producing(s)
    ensures Producing(Exec(s, actions))
    decreases |actions|
  {
    hide Inv;
    hide Producing;
    hide Next;
    if actions != [] {
      NextKeeps(s, actions[0]);
      StepProduces(s, actions[0]);
      ExecProduces(Next(s, actions[0]), actions[1..]);
    }
  }

  // A fully consumed stream, event by event: the approval if the prompt asks for one, as it was
  // decided; then the hold, the cancellation or the whole result; and the decision filed.
  lemma StreamIsWhole(binding: Binding, actions: seq<Action>)
    requires Exec(Init(binding), actions).pc.Finished?
    ensures var s := Exec(Init(binding), actions);
      && s.terminal.Some? && Kinds(s.emitter) == Whole(s.text, RaceWinner(s.notes), s.terminal.value)
      && Filed(s.text, RaceWinner(s.notes), s.pending)
      && s.artifacts == (if s.terminal == Some(RunSucceeded) then 1 else 0)
  {
    hide Whole;
    hide Filed;
    Reachable(binding, []);
    InitProduces(binding);
    ExecProduces(Init(binding), actions);
    RunOutcome(binding, actions);
    hide Exec;
    hide Inv;
    hide RaceWinner;
  }

  lemma InitProduces(binding: Binding)
    ensures Producing(Init(binding))
  {
    assert Kinds(Init(binding).emitter) == [];
  }

  // ----- Steering -----

  // The instructions a schedule gives while there is no verdict, in order.
  function Steers(s: State, actions: seq<Action>): seq<string>
    decreases |actions|
  {
    if actions == [] then []
    else
      var a := actions[0];
      (if a.Steer? && s.terminal.None? && a.text != "" then [a.text] else []) + Steers(Next(s, a), actions[1..])
  }

  lemma SteerStep(s: State, a: Action)
    ensures Next(s, a).steering ==
      s.steering + (if a.Steer? && s.terminal.None? && a.text != "" then [a.text] else [])
  {
    hide Emit;
    hide Includes;
  }

  lemma {:induction false} SteeringFollows(s: State, actions: seq<Action>)
    ensures Exec(s, actions).steering == s.steering + Steers(s, actions)
    decreases |actions|
  {
    hide Next;
    if actions != [] {
      SteerStep(s, actions[0]);
      SteeringFollows(Next(s, actions[0]), actions[1..]);
    }
  }

  // Every instruction that was accepted is kept, in the order they came, and no other.
  lemma SteeringIsKept(binding: Binding, actions: seq<Action>)
    ensures Exec(Init(binding), actions).steering == Steers(Init(binding), actions)
  {
    SteeringFollows(Init(binding), actions);
    assert [] + Steers(Init(binding), actions) == Steers(Init(binding), actions);
  }

  // ----- Decisions and closing -----

  // A decision is accepted exactly if an approval is open, it is for that one, and it is approve or
  // deny; anything else changes nothing at all.
  lemma DecisionNeedsItsApproval(s: State, approvalId: nat, decision: Option<Decision>)
    ensures Next(s, Decide(approvalId, decision)) != s <==>
      && s.pending.Some? && s.pending.value.id == approvalId && s.pending.value.status.Undecided?
      && decision.Some?
  {
    if decision.Some? {
      assert |s.notes + [Accepted(decision.value)]| > |s.notes|;
    }
  }

  // Close, in any state: a started run without a verdict is cancelled first, and the session stays
  // open until that call returns; any other session is marked closed and left as it is.
  lemma CloseCancelsFirst(s: State)
    ensures var t := Next(s, CloseSession);
      if s.terminal.None? && !s.pc.NotStarted?
      then t == Next(s, Cancel).(closing := s.closing + 1) && t.cancelRequested && t.closed == s.closed
      else t == s.(closed := true)
  {
  }

  // A session that was closed before a run was started in it never yields an event.
  lemma {:induction false} ClosedNeverBegins(s: State, actions: seq<Action>)
    requires s.closed && s.pc.NotStarted?
    ensures var t := Exec(s, actions); t.pc.NotStarted? && t.emitter == s.emitter
    decreases |actions|
  {
    if actions != [] {
      ClosedStep(s, actions[0]);
      hide Next;
      ClosedNeverBegins(Next(s, actions[0]), actions[1..]);
    }
  }

  lemma ClosedStep(s: State, a: Action)
    requires s.closed && s.pc.NotStarted?
    ensures var t := Next(s, a); t.closed && t.pc.NotStarted? && t.emitter == s.emitter
  {
  }
}
