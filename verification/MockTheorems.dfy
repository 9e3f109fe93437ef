// What one mock run promises, over every interleaving of pulls, decisions, steers, cancels and
// closes.
module MockTheorems {
  import opened Wrappers
  import opened Histories
  import opened Events
  import opened MockModel

  // ----- Reading a history -----

  function DecisionAt(notes: seq<Note>): nat {
    First(notes, (n: Note) => n.Accepted?)
  }

  function SettledAt(notes: seq<Note>): nat {
    First(notes, (n: Note) => n.Accepted? || n.CancelAccepted?)
  }

  function RaceAt(notes: seq<Note>): nat {
    First(notes, (n: Note) => n.RaceEntered?)
  }

  function CheckAt(notes: seq<Note>): nat {
    First(notes, (n: Note) => n.Checked?)
  }

  // The value of decisionDeferred: the first accepted decision.
  function FirstDecision(notes: seq<Note>): Option<Decision> {
    var d := DecisionAt(notes);
    if d < |notes| then Some(notes[d].decision) else None
  }

  // Who wins the race: a decision accepted before it began, else whatever was accepted first.
  function RaceWinner(notes: seq<Note>): Option<Winner> {
    var d, s, r := DecisionAt(notes), SettledAt(notes), RaceAt(notes);
    if r == |notes| then None
    else if d < r then Some(ByDecision(notes[d].decision))
    else if s == |notes| then None
    else if notes[s].Accepted? then Some(ByDecision(notes[s].decision))
    else Some(ByCancel)
  }

  predicate Cleared(text: string, notes: seq<Note>) {
    !AsksApproval(text) || RaceWinner(notes) == Some(ByDecision(Approve))
  }

  // The reference outcome of a run, as far as the history decides it.
  function Verdict(text: string, notes: seq<Note>): Option<EventType> {
    if AsksApproval(text) && RaceWinner(notes).None? then None
    else if AsksApproval(text) && RaceWinner(notes) == Some(ByCancel) then Some(RunCancelled)
    else if AsksApproval(text) && RaceWinner(notes) == Some(ByDecision(Deny)) then Some(RunFailed)
    else if Holds(text) then Some(RunCancelled)
    else if CheckAt(notes) == |notes| then None
    else if CancelAccepted in notes[..CheckAt(notes)] then Some(RunCancelled)
    else Some(RunSucceeded)
  }

  // ----- The invariant -----

  predicate Success(kind: EventType) {
    kind == MessageCompleted || kind == ArtifactCreated || kind == UsageUpdated || kind == RunSucceeded
  }

  // Neither a terminal event nor any part of a result.
  predicate Quiet(kinds: seq<EventType>) {
    forall k :: 0 <= k < |kinds| ==> !TerminalType(kinds[k]) && !Success(kinds[k])
  }

  predicate Ended(kinds: seq<EventType>, kind: EventType) {
    && EndsOnce(kinds) && kinds[|kinds| - 1] == kind
    && (kind != RunSucceeded ==> forall k :: 0 <= k < |kinds| ==> !Success(kinds[k]))
  }

  predicate Shape(pc: Pc, kinds: seq<EventType>, terminal: Option<EventType>) {
    match pc
    case NotStarted => kinds == [] && terminal.None?
    case Created => kinds == [] && terminal.None?
    case AtMessage => Open(kinds) && terminal.None?
    case AtArtifact => Open(kinds) && terminal.None?
    case AtUsage => Open(kinds) && terminal.None?
    case AtTerminal(kind) => Ended(kinds, kind) && terminal.None?
    case Finished => terminal.Some? && Ended(kinds, terminal.value)
    case Abandoned => terminal.None? && forall k :: 0 <= k < |kinds| - 1 ==> !TerminalType(kinds[k])
    case _ => Quiet(kinds) && terminal.None?
  }

  ghost predicate Streams(pc: Pc, emitter: Emitter, terminal: Option<EventType>) {
    Numbered(emitter) && Shape(pc, Kinds(emitter), terminal)
  }

  // The flag and the deferred are what the history accepted.
  ghost predicate FlagsTold(notes: seq<Note>, cancelRequested: bool, pending: Option<Approval>) {
    && (cancelRequested <==> CancelAccepted in notes)
    && FirstDecision(notes) == (if pending.Some? then pending.value.resolved else None)
  }

  predicate Fresh(notes: seq<Note>) {
    RaceAt(notes) == |notes| && CheckAt(notes) == |notes|
  }

  // What is known where the generator stands.
  ghost predicate Stands(pc: Pc, text: string, notes: seq<Note>, pending: Option<Approval>) {
    match pc
    case NotStarted => Fresh(notes) && pending.None?
    case Created => Fresh(notes) && pending.None?
    case AtStarted => Fresh(notes) && pending.None?
    case AtRequested => Fresh(notes) && AsksApproval(text) && pending.Some?
    case AtWaiting => Fresh(notes) && AsksApproval(text) && pending.Some?
    case AwaitRace(winner) =>
      && AsksApproval(text) && pending.Some?
      && RaceAt(notes) < |notes| && CheckAt(notes) == |notes| && RaceWinner(notes) == winner
    case AtDecided(decision) =>
      && AsksApproval(text) && pending.Some?
      && RaceAt(notes) < |notes| && CheckAt(notes) == |notes| && RaceWinner(notes) == Some(ByDecision(decision))
    case AtProgress => Cleared(text, notes) && Holds(text)
    case AwaitCancel => Cleared(text, notes) && Holds(text)
    case AtCancelRequested => Verdict(text, notes) == Some(RunCancelled) && CancelAccepted in notes
    case AtMessage => Verdict(text, notes) == Some(RunSucceeded)
    case AtArtifact => Verdict(text, notes) == Some(RunSucceeded)
    case AtUsage => Verdict(text, notes) == Some(RunSucceeded)
    case AtTerminal(kind) => Verdict(text, notes) == Some(kind) && (kind.RunCancelled? ==> CancelAccepted in notes)
    case Finished => true
    case Abandoned => true
  }

  predicate Decided(text: string, notes: seq<Note>) {
    Verdict(text, notes) == Some(RunSucceeded)
  }

  // No part of a result leaves before success is decided.
  ghost predicate Guarded(text: string, notes: seq<Note>, kinds: seq<EventType>) {
    (exists k :: 0 <= k < |kinds| && Success(kinds[k])) ==> Decided(text, notes)
  }

  ghost predicate Told(pc: Pc, text: string, notes: seq<Note>, terminal: Option<EventType>) {
    pc.Finished? ==>
      && terminal.Some? && Verdict(text, notes) == terminal
      && (terminal == Some(RunCancelled) ==> CancelAccepted in notes)
  }

  ghost predicate Inv(s: State) {
    && Streams(s.pc, s.emitter, s.terminal)
    && FlagsTold(s.notes, s.cancelRequested, s.pending)
    && Stands(s.pc, s.text, s.notes, s.pending)
    && Guarded(s.text, s.notes, Kinds(s.emitter))
    && Told(s.pc, s.text, s.notes, s.terminal)
  }

  // ----- One note later -----

  lemma DecisionAppended(notes: seq<Note>, note: Note)
    ensures DecisionAt(notes + [note]) ==
      if DecisionAt(notes) < |notes| then DecisionAt(notes) else if note.Accepted? then |notes| else |notes| + 1
    ensures SettledAt(notes + [note]) ==
      if SettledAt(notes) < |notes| then SettledAt(notes)
      else if note.Accepted? || note.CancelAccepted? then |notes| else |notes| + 1
  {
    FirstAppended(notes, note, (n: Note) => n.Accepted?);
    FirstAppended(notes, note, (n: Note) => n.Accepted? || n.CancelAccepted?);
    hide First;
  }

  lemma PlacesAppended(notes: seq<Note>, note: Note)
    ensures RaceAt(notes + [note]) ==
      if RaceAt(notes) < |notes| then RaceAt(notes) else if note.RaceEntered? then |notes| else |notes| + 1
    ensures CheckAt(notes + [note]) ==
      if CheckAt(notes) < |notes| then CheckAt(notes) else if note.Checked? then |notes| else |notes| + 1
  {
    FirstAppended(notes, note, (n: Note) => n.RaceEntered?);
    FirstAppended(notes, note, (n: Note) => n.Checked?);
    hide First;
  }

  lemma DecisionIsSettled(notes: seq<Note>)
    ensures SettledAt(notes) <= DecisionAt(notes)
    ensures SettledAt(notes) < |notes| && notes[SettledAt(notes)].Accepted? ==> DecisionAt(notes) == SettledAt(notes)
  {
    var s := SettledAt(notes);
    var d := DecisionAt(notes);
    if d < |notes| {
      assert notes[d].Accepted?;
    }
  }

  // Once there is a winner it stays; while the race is open the next acceptance wins it.
  lemma WinnerAppended(notes: seq<Note>, note: Note)
    ensures RaceWinner(notes).Some? ==> RaceWinner(notes + [note]) == RaceWinner(notes)
    ensures RaceAt(notes) < |notes| && RaceWinner(notes).None? ==>
      RaceWinner(notes + [note]) ==
        match note
        case Accepted(decision) => Some(ByDecision(decision))
        case CancelAccepted => Some(ByCancel)
        case _ => None
    ensures RaceAt(notes) == |notes| && note.RaceEntered? ==>
      RaceWinner(notes + [note]) ==
        if FirstDecision(notes).Some? then Some(ByDecision(FirstDecision(notes).value))
        else if CancelAccepted in notes then Some(ByCancel)
        else None
  {
    DecisionAppended(notes, note);
    PlacesAppended(notes, note);
    DecisionIsSettled(notes);
    DecisionIsSettled(notes + [note]);
    var s := SettledAt(notes);
    assert CancelAccepted in notes ==> s < |notes| by {
      if CancelAccepted in notes {
        var k :| 0 <= k < |notes| && notes[k] == CancelAccepted;
        assert notes[k].CancelAccepted?;
      }
    }
    assert s < |notes| ==> notes[s].Accepted? || notes[s] == CancelAccepted;
    hide First;
  }

  lemma VerdictAppended(text: string, notes: seq<Note>, note: Note)
    ensures Verdict(text, notes).Some? ==> Verdict(text, notes + [note]) == Verdict(text, notes)
    ensures Cleared(text, notes) ==> Cleared(text, notes + [note])
  {
    WinnerAppended(notes, note);
    PlacesAppended(notes, note);
    assert (notes + [note])[..|notes|] == notes;
    if CheckAt(notes) < |notes| {
      assert (notes + [note])[..CheckAt(notes)] == notes[..CheckAt(notes)];
    }
    hide CheckAt;
    hide RaceWinner;
    hide Includes;
  }

  // ----- Yields -----

  lemma YieldStreams(pc: Pc, e: Emitter, terminal: Option<EventType>, id: nat, kind: EventType, next: Pc)
    requires Streams(pc, e, terminal) && Unused(e, id) && Shape(next, Kinds(e) + [kind], terminal)
    ensures Streams(next, Emit(e, id, kind), terminal) && Kinds(Emit(e, id, kind)) == Kinds(e) + [kind]
  {
    EmitNumbers(e, id, kind);
    hide Numbered;
    hide Kinds;
    hide Emit;
    hide Shape;
  }

  lemma GuardedYield(text: string, notes: seq<Note>, kinds: seq<EventType>, kind: EventType)
    requires Guarded(text, notes, kinds) && (Success(kind) ==> Decided(text, notes))
    ensures Guarded(text, notes, kinds + [kind])
  {
    hide Decided;
    hide Success;
    var all := kinds + [kind];
    if k :| 0 <= k < |all| && Success(all[k]) {
      assert k < |kinds| ==> Success(kinds[k]);
    }
  }

  // A yield that keeps the shape and is justified by the history keeps the invariant.
  lemma YieldKeeps(s: State, id: nat, kind: EventType, next: Pc)
    requires Streams(s.pc, s.emitter, s.terminal) && Unused(s.emitter, id)
    requires Shape(next, Kinds(s.emitter) + [kind], s.terminal) && !next.Finished?
    requires FlagsTold(s.notes, s.cancelRequested, s.pending)
    requires Guarded(s.text, s.notes, Kinds(s.emitter)) && (Success(kind) ==> Decided(s.text, s.notes))
    requires Stands(next, s.text, s.notes, s.pending)
    ensures Inv(Yield(s, id, kind, next))
  {
    YieldStreams(s.pc, s.emitter, s.terminal, id, kind, next);
    GuardedYield(s.text, s.notes, Kinds(s.emitter), kind);
    hide Streams;
    hide Shape;
    hide FlagsTold;
    hide Guarded;
    hide Stands;
    hide Emit;
    hide Kinds;
    hide Verdict;
  }

  lemma EndsQuietly(kinds: seq<EventType>, kind: EventType)
    requires Quiet(kinds) && TerminalType(kind) && !Success(kind)
    ensures Ended(kinds + [kind], kind)
  {
  }

  // The notes the generator itself takes change no flag and no guard.
  lemma NotedKeeps(s: State, note: Note)
    requires FlagsTold(s.notes, s.cancelRequested, s.pending) && Guarded(s.text, s.notes, Kinds(s.emitter))
    requires note.RaceEntered? || note.Checked?
    ensures FlagsTold(s.notes + [note], s.cancelRequested, s.pending)
    ensures Guarded(s.text, s.notes + [note], Kinds(s.emitter))
  {
    DecisionAppended(s.notes, note);
    InAppended(s.notes, note, CancelAccepted);
    VerdictAppended(s.text, s.notes, note);
    hide Cleared;
    hide Verdict;
    hide DecisionAt;
    hide SettledAt;
    hide Kinds;
  }

  // Passing the last check decides the verdict.
  lemma CheckDecides(text: string, notes: seq<Note>)
    requires Cleared(text, notes) && !Holds(text) && CheckAt(notes) == |notes|
    ensures Verdict(text, notes + [Checked]) == Some(if CancelAccepted in notes then RunCancelled else RunSucceeded)
    ensures Cleared(text, notes + [Checked])
  {
    VerdictAppended(text, notes, Checked);
    PlacesAppended(notes, Checked);
    assert (notes + [Checked])[..|notes|] == notes;
    hide CheckAt;
    hide RaceAt;
    hide RaceWinner;
    hide Includes;
  }

  lemma QuietGoesOn(kinds: seq<EventType>, next: Pc, kind: EventType)
    requires Quiet(kinds) && !TerminalType(kind)
    requires next.AtMessage? || ((next.AtProgress? || next.AtCancelRequested?) && !Success(kind))
    ensures Shape(next, kinds + [kind], None)
  {
  }

  lemma ProceedKeeps(s: State, id: nat)
    requires Streams(s.pc, s.emitter, s.terminal) && Quiet(Kinds(s.emitter)) && s.terminal.None?
      && Unused(s.emitter, id)
    requires FlagsTold(s.notes, s.cancelRequested, s.pending) && Guarded(s.text, s.notes, Kinds(s.emitter))
    requires Cleared(s.text, s.notes) && CheckAt(s.notes) == |s.notes|
    ensures Inv(Proceed(s, id))
  {
    hide Inv;
    hide Streams;
    hide Shape;
    hide Guarded;
    hide Holds;
    hide Kinds;
    hide Verdict;
    hide Cleared;
    hide CheckAt;
    if Holds(s.text) {
      QuietGoesOn(Kinds(s.emitter), AtProgress, Progress);
      YieldKeeps(s, id, Progress, AtProgress);
    } else {
      NotedKeeps(s, Checked);
      CheckDecides(s.text, s.notes);
      InAppended(s.notes, Checked, CancelAccepted);
      assert s.cancelRequested <==> CancelAccepted in s.notes;
      hide FlagsTold;
      if s.cancelRequested {
        QuietGoesOn(Kinds(s.emitter), AtCancelRequested, CancelRequested);
        YieldKeeps(Noted(s, Checked), id, CancelRequested, AtCancelRequested);
      } else {
        QuietGoesOn(Kinds(s.emitter), AtMessage, MessageCompleted);
        YieldKeeps(Noted(s, Checked), id, MessageCompleted, AtMessage);
      }
    }
    hide Yield;
  }

  lemma DecidedKeeps(s: State, id: nat, decision: Decision)
    requires Inv(s) && Unused(s.emitter, id) && s.pc == AtDecided(decision)
    ensures Inv(AfterDecided(s, id, decision))
  {
    var t := s.(pending := Some(s.pending.value.(status := if decision.Approve? then Approved else Denied)));
    assert FlagsTold(t.notes, t.cancelRequested, t.pending) by {
      hide Stands;
    }
    hide FlagsTold;
    hide Guarded;
    if decision.Approve? {
      ProceedKeeps(t, id);
    } else {
      EndsQuietly(Kinds(s.emitter), RunFailed);
      YieldKeeps(t, id, RunFailed, AtTerminal(RunFailed));
    }
    hide Kinds;
    hide Inv;
    hide Yield;
    hide Proceed;
  }

  lemma StartedKeeps(s: State, id: nat, approvalId: nat)
    requires Inv(s) && Unused(s.emitter, id) && s.pc.AtStarted?
    ensures Inv(AfterStarted(s, id, approvalId))
  {
    if AsksApproval(s.text) {
      var t := s.(pending := Some(Approval(approvalId, Undecided, None)));
      YieldKeeps(t, id, ApprovalRequested, AtRequested);
    } else {
      ProceedKeeps(s, id);
    }
    hide Kinds;
    hide Includes;
    hide Inv;
    hide Yield;
    hide Proceed;
    hide Fresh;
  }

  lemma EntryWinner(s: State)
    requires FlagsTold(s.notes, s.cancelRequested, s.pending) && Fresh(s.notes) && s.pending.Some?
    ensures RaceWinner(s.notes + [RaceEntered]) == EnterRace(s).pc.winner
    ensures RaceAt(s.notes + [RaceEntered]) < |s.notes| + 1 && CheckAt(s.notes + [RaceEntered]) == |s.notes| + 1
  {
    WinnerAppended(s.notes, RaceEntered);
    PlacesAppended(s.notes, RaceEntered);
    hide RaceWinner;
    hide RaceAt;
    hide CheckAt;
    hide FirstDecision;
  }

  lemma RaceEntryKeeps(s: State)
    requires Inv(s) && s.pc.AtWaiting?
    ensures Inv(EnterRace(s))
  {
    EntryWinner(s);
    NotedKeeps(s, RaceEntered);
    assert Streams(EnterRace(s).pc, s.emitter, s.terminal) by {
      hide Kinds;
      hide Numbered;
    }
    hide Streams;
    hide FlagsTold;
    hide Kinds;
    hide Guarded;
    hide RaceWinner;
    hide RaceAt;
    hide CheckAt;
    hide Fresh;
    hide Includes;
  }

  lemma SuccessCleared(text: string, notes: seq<Note>)
    requires Verdict(text, notes) == Some(RunSucceeded)
    ensures Cleared(text, notes)
  {
    match RaceWinner(notes) {
      case None =>
      case Some(ByCancel) =>
      case Some(ByDecision(Approve)) =>
      case Some(ByDecision(Deny)) =>
    }
    hide RaceWinner;
    hide Includes;
  }

  lemma ResultKeeps(s: State, id: nat)
    requires Inv(s) && Unused(s.emitter, id) && (s.pc.AtMessage? || s.pc.AtArtifact? || s.pc.AtUsage?)
    ensures Inv(OnPull(s, id, 0))
  {
    hide Verdict;
    hide FlagsTold;
    hide Guarded;
    match s.pc {
      case AtMessage => YieldKeeps(s.(artifacts := s.artifacts + 1), id, ArtifactCreated, AtArtifact);
      case AtArtifact => YieldKeeps(s, id, UsageUpdated, AtUsage);
      case AtUsage => YieldKeeps(s, id, RunSucceeded, AtTerminal(RunSucceeded));
    }
    hide Kinds;
    hide Inv;
    hide Yield;
  }

  lemma EndKeeps(s: State, id: nat)
    requires Inv(s) && Unused(s.emitter, id) && (s.pc.AtCancelRequested? || s.pc.AtTerminal?)
    ensures Inv(OnPull(s, id, 0))
  {
    hide Verdict;
    hide FlagsTold;
    hide Guarded;
    hide Kinds;
    hide Yield;
    hide Numbered;
    if s.pc.AtCancelRequested? {
      EndsQuietly(Kinds(s.emitter), RunCancelled);
      YieldKeeps(s, id, RunCancelled, AtTerminal(RunCancelled));
      hide Inv;
    }
  }

  lemma PullKeeps(s: State, id: nat, approvalId: nat)
    requires Inv(s) && Unused(s.emitter, id)
    ensures Inv(OnPull(s, id, approvalId))
  {
    match s.pc {
      case AtStarted => StartedKeeps(s, id, approvalId); hide Inv;
      case AtWaiting => RaceEntryKeeps(s); hide Inv;
      case AtDecided(decision) => DecidedKeeps(s, id, decision); hide Inv;
      case AtCancelRequested => EndKeeps(s, id); hide Inv;
      case AtTerminal(_) => EndKeeps(s, id); hide Inv;
      case AtMessage => ResultKeeps(s, id); hide Inv;
      case AtArtifact => ResultKeeps(s, id); hide Inv;
      case AtUsage => ResultKeeps(s, id); hide Inv;
      case Created => YieldKeeps(s, id, RunStarted, AtStarted);
      case AtRequested => YieldKeeps(s, id, WaitingApproval, AtWaiting);
      case AtProgress => HoldAwaited(s);
      case _ =>
    }
    hide AfterStarted;
    hide AfterDecided;
    hide EnterRace;
    hide FlagsTold;
    hide Guarded;
    hide Streams;
    hide Yield;
    hide Kinds;
    hide Fresh;
  }

  lemma HoldAwaited(s: State)
    requires Inv(s) && s.pc.AtProgress?
    ensures Inv(s.(pc := AwaitCancel))
  {
    hide Kinds;
    hide Numbered;
    hide FlagsTold;
    hide Guarded;
    hide Cleared;
  }

  lemma RaceKeeps(s: State, id: nat)
    requires Inv(s) && Unused(s.emitter, id)
    ensures Inv(OnRace(s, id))
  {
    hide Guarded;
    hide Kinds;
    hide Yield;
    hide Cleared;
    if s.pc.AwaitRace? && s.pc.winner.Some? {
      var winner := s.pc.winner.value;
      if winner.ByCancel? {
        WinnerWasAccepted(s.notes);
        YieldKeeps(s, id, CancelRequested, AtCancelRequested);
      } else {
        YieldKeeps(s, id, ApprovalDecided, AtDecided(winner.decision));
      }
    }
    hide Inv;
  }

  lemma HoldKeeps(s: State, id: nat)
    requires Inv(s) && Unused(s.emitter, id)
    ensures Inv(OnHold(s, id))
  {
    hide Guarded;
    hide Kinds;
    hide Yield;
    hide RaceWinner;
    if s.pc.AwaitCancel? && s.cancelRequested {
      HoldVerdict(s.text, s.notes);
      assert CancelAccepted in s.notes;
      YieldKeeps(s, id, CancelRequested, AtCancelRequested);
    }
    hide Inv;
  }

  lemma HoldVerdict(text: string, notes: seq<Note>)
    requires Cleared(text, notes) && Holds(text)
    ensures Verdict(text, notes) == Some(RunCancelled)
  {
    hide RaceWinner;
    hide Includes;
  }

  lemma WinnerWasAccepted(notes: seq<Note>)
    ensures RaceWinner(notes) == Some(ByCancel) ==> CancelAccepted in notes
    ensures forall d :: RaceWinner(notes) == Some(ByDecision(d)) ==> FirstDecision(notes) == Some(d)
    ensures RaceAt(notes) < |notes| && FirstDecision(notes).Some? ==> RaceWinner(notes).Some?
  {
    DecisionIsSettled(notes);
    hide First;
  }

  // ----- The commands -----

  // What an acceptance does to the generator's standing.
  lemma StandsAccepted(s: State, note: Note, pending: Option<Approval>)
    requires Stands(s.pc, s.text, s.notes, s.pending)
    requires note.CancelAccepted? || (note.Accepted? && s.pending.Some?)
    requires pending.Some? <==> s.pending.Some?
    ensures Stands(Settle(s.pc, if note.Accepted? then ByDecision(note.decision) else ByCancel), s.text,
      s.notes + [note], pending)
  {
    WinnerAppended(s.notes, note);
    PlacesAppended(s.notes, note);
    VerdictAppended(s.text, s.notes, note);
    InAppended(s.notes, note, CancelAccepted);
    hide RaceWinner;
    hide RaceAt;
    hide CheckAt;
    hide Verdict;
    hide Cleared;
    hide Includes;
  }

  lemma AcceptStreams(s: State, winner: Winner)
    requires Streams(s.pc, s.emitter, s.terminal)
    ensures Streams(Settle(s.pc, winner), s.emitter, s.terminal)
  {
    hide Numbered;
    hide Kinds;
  }

  lemma AcceptGuards(s: State, note: Note)
    requires Guarded(s.text, s.notes, Kinds(s.emitter)) && Told(s.pc, s.text, s.notes, s.terminal)
    ensures Guarded(s.text, s.notes + [note], Kinds(s.emitter)) && Told(s.pc, s.text, s.notes + [note], s.terminal)
    ensures forall winner :: Told(Settle(s.pc, winner), s.text, s.notes + [note], s.terminal)
  {
    VerdictAppended(s.text, s.notes, note);
    InAppended(s.notes, note, CancelAccepted);
    hide Verdict;
    hide Cleared;
    hide Kinds;
  }

  lemma AcceptFlags(s: State, note: Note)
    requires FlagsTold(s.notes, s.cancelRequested, s.pending)
    requires note.CancelAccepted? || (note.Accepted? && s.pending.Some?)
    ensures note.CancelAccepted? ==> FlagsTold(s.notes + [note], true, s.pending)
    ensures note.Accepted? ==>
      FlagsTold(s.notes + [note], s.cancelRequested,
        if s.pending.value.resolved.Some? then s.pending else Some(s.pending.value.(resolved := Some(note.decision))))
  {
    DecisionAppended(s.notes, note);
    InAppended(s.notes, note, CancelAccepted);
    hide DecisionAt;
    hide SettledAt;
  }

  lemma CancelKeeps(s: State)
    requires Inv(s)
    ensures Inv(OnCancel(s))
  {
    if s.terminal.None? {
      StandsAccepted(s, CancelAccepted, s.pending);
      AcceptStreams(s, ByCancel);
      AcceptGuards(s, CancelAccepted);
      AcceptFlags(s, CancelAccepted);
    }
    hide Streams;
    hide Stands;
    hide Guarded;
    hide FlagsTold;
    hide Kinds;
    hide Verdict;
    hide Told;
    hide Settle;
  }

  lemma DecideKeeps(s: State, approvalId: nat, decision: Option<Decision>)
    requires Inv(s)
    ensures Inv(OnDecide(s, approvalId, decision))
  {
    if Deciding(s, approvalId, decision) {
      var note := Accepted(decision.value);
      var winner := ByDecision(decision.value);
      var resolved := s.pending.value.resolved;
      var pending := if resolved.Some? then s.pending else Some(s.pending.value.(resolved := decision));
      AcceptFlags(s, note);
      StandsAccepted(s, note, pending);
      if resolved.Some? {
        NotRacing(s);
        assert Settle(s.pc, winner) == s.pc;
      }
      AcceptStreams(s, winner);
      AcceptGuards(s, note);
    }
    hide Streams;
    hide Stands;
    hide Guarded;
    hide FlagsTold;
    hide Kinds;
    hide Verdict;
    hide Told;
    hide Settle;
  }

  // With the deferred resolved, the race is not open.
  lemma NotRacing(s: State)
    requires FlagsTold(s.notes, s.cancelRequested, s.pending) && Stands(s.pc, s.text, s.notes, s.pending)
    requires s.pending.Some? && s.pending.value.resolved.Some?
    ensures s.pc != AwaitRace(None)
  {
    WinnerWasAccepted(s.notes);
    hide RaceWinner;
    hide RaceAt;
    hide DecisionAt;
    hide Verdict;
  }

  // ----- Every step, every run -----

  lemma StartKeeps(s: State, text: string)
    requires Inv(s)
    ensures Inv(Start(s, text))
  {
    hide Numbered;
    hide FlagsTold;
    hide Cleared;
    hide Verdict;
    hide Fresh;
  }

  lemma ReturnKeeps(s: State)
    requires Inv(s) && AtYield(s.pc)
    ensures Inv(s.(pc := Abandoned))
  {
    hide Numbered;
    hide Kinds;
    hide FlagsTold;
    hide Guarded;
    hide Verdict;
    hide Fresh;
    hide Cleared;
  }

  lemma CloseKeeps(s: State)
    requires Inv(s)
    ensures Inv(OnClose(s))
  {
    CancelKeeps(s);
    hide OnCancel;
    hide Streams;
    hide Stands;
    hide Guarded;
    hide FlagsTold;
    hide Told;
    hide Kinds;
  }

  lemma QuietKeeps(s: State, closed: bool, closing: nat, steering: seq<string>)
    requires Inv(s)
    ensures Inv(s.(closed := closed, closing := closing, steering := steering))
  {
    hide Streams;
    hide Stands;
    hide Guarded;
    hide FlagsTold;
    hide Told;
    hide Kinds;
  }

  lemma NextKeeps(s: State, a: Action)
    requires Inv(s)
    ensures Inv(Next(s, a))
  {
    hide Inv;
    match a {
      case StartRun(text) => StartKeeps(s, text);
      case Pull(id, approvalId) => if Unused(s.emitter, id) { PullKeeps(s, id, approvalId); }
      case ConsumerReturns => if AtYield(s.pc) { ReturnKeeps(s); }
      case RaceResumes(id) => if Unused(s.emitter, id) { RaceKeeps(s, id); }
      case HoldResumes(id) => if Unused(s.emitter, id) { HoldKeeps(s, id); }
      case Decide(approvalId, decision) => DecideKeeps(s, approvalId, decision);
      case Steer(text) => QuietKeeps(s, s.closed, s.closing, s.steering + [text]);
      case Cancel => CancelKeeps(s);
      case CloseSession => CloseKeeps(s);
      case CloseResumes => if s.closing > 0 { QuietKeeps(s, true, s.closing - 1, s.steering); }
    }
    hide Start;
    hide OnPull;
    hide OnRace;
    hide OnHold;
    hide OnDecide;
    hide OnCancel;
    hide OnClose;
    hide Unused;
    hide AtYield;
  }

  lemma {:induction false} ExecKeeps(s: State, actions: seq<Action>)
    requires Inv(s)
    ensures Inv(Exec(s, actions))
    decreases |actions|
  {
    hide Inv;
    hide Next;
    if actions != [] {
      NextKeeps(s, actions[0]);
      ExecKeeps(Next(s, actions[0]), actions[1..]);
    }
  }

  lemma Reachable(binding: Binding, actions: seq<Action>)
    ensures Inv(Exec(Init(binding), actions))
  {
    var s := Init(binding);
    assert Kinds(s.emitter) == [];
    assert Inv(s);
    hide Inv;
    ExecKeeps(s, actions);
  }

  // ----- The theorems -----

  // A fully consumed stream ends in its one terminal event, and that event is the reference
  // outcome of what was accepted, where.  A cancelled run was cancelled by somebody.
  lemma RunOutcome(binding: Binding, actions: seq<Action>)
    requires Exec(Init(binding), actions).pc.Finished?
    ensures var s := Exec(Init(binding), actions);
      && EndsOnce(Kinds(s.emitter))
      && Verdict(s.text, s.notes) == Some(Kinds(s.emitter)[|Kinds(s.emitter)| - 1]) == s.terminal
      && (s.terminal == Some(RunCancelled) ==> CancelAccepted in s.notes)
  {
    Reachable(binding, actions);
  }

  // Fail-closed: on an approval prompt no part of a result leaves the session unless the first
  // accepted decision was approve.
  lemma FailClosed(binding: Binding, actions: seq<Action>)
    requires var s := Exec(Init(binding), actions);
      AsksApproval(s.text) && exists k :: 0 <= k < |s.emitter.events| && Success(s.emitter.events[k].kind)
    ensures FirstDecision(Exec(Init(binding), actions).notes) == Some(Approve)
  {
    Reachable(binding, actions);
    var s := Exec(Init(binding), actions);
    var k :| 0 <= k < |s.emitter.events| && Success(s.emitter.events[k].kind);
    assert Success(Kinds(s.emitter)[k]);
    SuccessCleared(s.text, s.notes);
    WinnerWasAccepted(s.notes);
  }

  // A cancel accepted before the last check excludes success: no part of a result leaves unless
  // the check was passed and nothing accepted before it was a cancel.
  lemma CancelBeforeCheckWins(binding: Binding, actions: seq<Action>)
    requires var events := Exec(Init(binding), actions).emitter.events;
      exists k :: 0 <= k < |events| && Success(events[k].kind)
    ensures var notes := Exec(Init(binding), actions).notes;
      CheckAt(notes) < |notes| && CancelAccepted !in notes[..CheckAt(notes)]
  {
    Reachable(binding, actions);
    var s := Exec(Init(binding), actions);
    var k :| 0 <= k < |s.emitter.events| && Success(s.emitter.events[k].kind);
    assert Success(Kinds(s.emitter)[k]);
  }

  function AtFirstMessage(binding: Binding): State {
    Next(Next(Next(Init(binding), StartRun("x")), Pull(0, 0)), Pull(1, 0))
  }

  lemma MessageReached(binding: Binding)
    ensures var s := AtFirstMessage(binding);
      s.pc.AtMessage? && s.terminal.None? && Below(s.emitter, 2)
  {
    assert !AsksApproval("x") && !Holds("x");
    hide Includes;
  }

  // A cancel that passes the check too late does not stop the run.
  lemma LateCancelStillSucceeds(binding: Binding)
    ensures exists actions :: var s := Exec(Init(binding), actions);
      s.pc.Finished? && s.terminal == Some(RunSucceeded) && s.cancelRequested
  {
    var late := [Pull(2, 0), Pull(3, 0), Pull(4, 0), Pull(5, 0)];
    FourThen(Init(binding), StartRun("x"), Pull(0, 0), Pull(1, 0), Cancel, late);
    CancelsLate(binding);
    ResultPulls(Next(AtFirstMessage(binding), Cancel), late);
    hide Exec;
    hide Next;
    hide Below;
  }

  lemma CancelsLate(binding: Binding)
    ensures var t := Next(AtFirstMessage(binding), Cancel); t.pc.AtMessage? && Below(t.emitter, 2) && t.cancelRequested
  {
    MessageReached(binding);
    hide AtFirstMessage;
    hide Below;
  }

  lemma FourThen(s: State, a: Action, b: Action, c: Action, d: Action, more: seq<Action>)
    ensures Exec(s, [a, b, c, d] + more) == Exec(Next(Next(Next(Next(s, a), b), c), d), more)
  {
    hide Next;
    var all := [a, b, c, d] + more;
    assert all[1..][1..][1..][1..] == more;
    assert Exec(s, all) == Exec(Next(s, a), all[1..]);
    assert Exec(Next(s, a), all[1..]) == Exec(Next(Next(s, a), b), all[1..][1..]);
    assert Exec(Next(Next(s, a), b), all[1..][1..]) == Exec(Next(Next(Next(s, a), b), c), all[1..][1..][1..]);
  }

  lemma ResultPulls(s: State, a: seq<Action>)
    requires s.pc.AtMessage? && Below(s.emitter, 2)
    requires a == [Pull(2, 0), Pull(3, 0), Pull(4, 0), Pull(5, 0)]
    ensures var t := Exec(s, a);
      t.pc.Finished? && t.terminal == Some(RunSucceeded) && t.cancelRequested == s.cancelRequested
  {
    hide Below;
    hide Unused;
    hide Emit;
    hide Includes;
    BelowEmit(s.emitter, 2, ArtifactCreated);
    BelowEmit(Emit(s.emitter, 2, ArtifactCreated), 3, UsageUpdated);
    BelowEmit(Emit(Emit(s.emitter, 2, ArtifactCreated), 3, UsageUpdated), 4, RunSucceeded);
    BelowEmit(Emit(Emit(Emit(s.emitter, 2, ArtifactCreated), 3, UsageUpdated), 4, RunSucceeded), 5, RunSucceeded);
    var s1 := Next(s, a[0]);
    var s2 := Next(s1, a[1]);
    var s3 := Next(s2, a[2]);
    var s4 := Next(s3, a[3]);
    assert s1.pc.AtArtifact? && s2.pc.AtUsage? && s3.pc == AtTerminal(RunSucceeded) && s4.pc.Finished?;
    assert Exec(s, a) == Exec(s1, a[1..]);
    assert Exec(s1, a[1..]) == Exec(s2, a[1..][1..]);
    assert Exec(s2, a[1..][1..]) == Exec(s3, a[1..][1..][1..]);
    assert Exec(s3, a[1..][1..][1..]) == Exec(s4, a[1..][1..][1..][1..]);
    assert a[1..][1..][1..][1..] == [];
  }

  lemma StreamPasses(binding: Binding, actions: seq<Action>)
    requires Exec(Init(binding), actions).pc.Finished?
    ensures var events := Exec(Init(binding), actions).emitter.events;
      && Monotonic(events) && |Terminals(events)| == 1 && Terminals(events)[0] == events[|events| - 1]
      && forall k :: 0 <= k < |events| ==> events[k].binding == binding
  {
    Reachable(binding, actions);
    BindingKept(Init(binding), actions);
    GoodStreamsPass(Exec(Init(binding), actions).emitter);
  }

  lemma PullBinding(s: State, id: nat, approvalId: nat)
    ensures OnPull(s, id, approvalId).emitter.binding == s.emitter.binding
  {
    hide Includes;
  }

  lemma NextBinding(s: State, a: Action)
    ensures Next(s, a).emitter.binding == s.emitter.binding
  {
    if a.Pull? {
      PullBinding(s, a.id, a.approvalId);
    }
    hide OnPull;
    hide Unused;
  }

  lemma {:induction false} BindingKept(s: State, actions: seq<Action>)
    ensures Exec(s, actions).emitter.binding == s.emitter.binding
    decreases |actions|
  {
    hide Next;
    if actions != [] {
      NextBinding(s, actions[0]);
      BindingKept(Next(s, actions[0]), actions[1..]);
    }
  }

  // ----- A second decision -----

  // Everything but the history.
  function Visible(s: State): State {
    s.(notes := [])
  }

  // The history is only written: no step reads it.
  lemma PullForgets(s: State, id: nat, approvalId: nat)
    ensures Visible(OnPull(s, id, approvalId)) == Visible(OnPull(Visible(s), id, approvalId))
  {
    match s.pc {
      case AtStarted => ProceedForgets(s, id);
      case AtDecided(decision) => DecidedForgets(s, id, decision);
      case _ =>
    }
    hide AfterDecided;
    hide Proceed;
    hide Includes;
    hide Emit;
  }

  lemma DecidedForgets(s: State, id: nat, decision: Decision)
    ensures Visible(AfterDecided(s, id, decision)) == Visible(AfterDecided(Visible(s), id, decision))
  {
    ProceedForgets(s, id);
    if s.pending.Some? {
      ProceedForgets(s.(pending := Some(s.pending.value.(status := Approved))), id);
    }
    hide Proceed;
    hide Emit;
  }

  lemma ProceedForgets(s: State, id: nat)
    ensures Visible(Proceed(s, id)) == Visible(Proceed(Visible(s), id))
  {
    hide Includes;
    hide Emit;
  }

  lemma DecideForgets(s: State, approvalId: nat, decision: Option<Decision>)
    ensures Visible(OnDecide(s, approvalId, decision)) == Visible(OnDecide(Visible(s), approvalId, decision))
  {
  }

  lemma CancelForgets(s: State)
    ensures Visible(OnCancel(s)) == Visible(OnCancel(Visible(s))) && Visible(OnClose(s)) == Visible(OnClose(Visible(s)))
  {
  }

  lemma NextForgets(s: State, a: Action)
    ensures Visible(Next(s, a)) == Visible(Next(Visible(s), a))
  {
    match a {
      case Pull(id, approvalId) => PullForgets(s, id, approvalId);
      case Decide(approvalId, decision) => DecideForgets(s, approvalId, decision);
      case Cancel => CancelForgets(s);
      case CloseSession => CancelForgets(s);
      case _ =>
    }
    hide OnPull;
    hide OnDecide;
    hide OnCancel;
    hide OnClose;
    hide Unused;
    hide Emit;
  }

  lemma {:induction false} ExecVisible(s: State, t: State, actions: seq<Action>)
    requires Visible(s) == Visible(t)
    ensures Visible(Exec(s, actions)) == Visible(Exec(t, actions))
    decreases |actions|
  {
    hide Next;
    hide Visible;
    if actions != [] {
      NextForgets(s, actions[0]);
      NextForgets(t, actions[0]);
      ExecVisible(Next(s, actions[0]), Next(t, actions[0]), actions[1..]);
    }
  }

  // Once a decision was accepted, a further one, at any later point and whatever follows it,
  // changes nothing: same events, same verdict, same session.
  lemma SecondDecisionIsInert(s: State, approvalId: nat, decision: Option<Decision>, actions: seq<Action>)
    requires s.pending.Some? && s.pending.value.resolved.Some?
    ensures Visible(Exec(Next(s, Decide(approvalId, decision)), actions)) == Visible(Exec(s, actions))
  {
    ExecVisible(Next(s, Decide(approvalId, decision)), s, actions);
  }
}
