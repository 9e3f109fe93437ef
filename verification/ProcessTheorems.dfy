// What one process-backed run promises, over every order of output chunks, timer, spawn error,
// exit, pulls, cancels and closes.
module ProcessTheorems {
  import opened Wrappers
  import opened Events
  import opened ChildProcess
  import opened ProcessModel
  import opened Histories

  // ----- Reading a history -----

  function ExitAt(notes: seq<Note>): nat {
    First(notes, (n: Note) => n.Exited?)
  }

  function ObservedAt(notes: seq<Note>): nat {
    First(notes, (n: Note) => n.Observed?)
  }

  function Arrivals(notes: seq<Note>): seq<Chunk> {
    if notes == [] then []
    else
      var last := notes[|notes| - 1];
      Arrivals(notes[..|notes| - 1]) + (if last.Arrived? then [last.chunk] else [])
  }

  predicate ParsedWell(notes: seq<Note>) {
    ParseSeen(Parsed(true, false)) in notes || ParseSeen(Parsed(true, true)) in notes
  }

  predicate Parsing(notes: seq<Note>) {
    exists k :: 0 <= k < |notes| && notes[k].ParseSeen?
  }

  // The flags the generator tests, in its order: cancel as of the moment it observes the exit,
  // everything else as of the exit itself.
  predicate Undisturbed(notes: seq<Note>, exit: nat, observed: nat, cap: nat)
    requires exit <= |notes| && observed <= |notes|
  {
    && CancelAccepted !in notes[..observed]
    && TimerFired !in notes[..exit]
    && Total(Arrivals(notes[..exit])) <= cap
    && ErrorSeen !in notes[..exit]
  }

  // The reference outcome: cancel, then timeout, then overflow, then spawn error, then the parse,
  // then the exit code.
  function Expected(notes: seq<Note>, exit: nat, observed: nat, cap: nat): EventType
    requires exit < |notes| && observed <= |notes| && notes[exit].Exited?
  {
    if CancelAccepted in notes[..observed] then RunCancelled
    else if TimerFired in notes[..exit] then RunTimedOut
    else if Total(Arrivals(notes[..exit])) > cap then RunFailed
    else if ErrorSeen in notes[..exit] then RunFailed
    else if ParsedWell(notes) && notes[exit].code == Some(0) then RunSucceeded
    else RunFailed
  }

  // The child that a history without an exit leaves behind.
  function Grown(notes: seq<Note>, cap: nat): Child {
    Feed(Arrivals(notes), cap).(timedOut := TimerFired in notes, spawnError := ErrorSeen in notes)
  }

  lemma ParsingAppended(notes: seq<Note>, note: Note)
    ensures Parsing(notes + [note]) <==> Parsing(notes) || note.ParseSeen?
  {
    var all := notes + [note];
    assert all[|notes|] == note;
    if Parsing(notes) {
      var k :| 0 <= k < |notes| && notes[k].ParseSeen?;
      assert all[k].ParseSeen?;
    }
  }

  lemma ArrivalsAppended(notes: seq<Note>, note: Note)
    ensures Arrivals(notes + [note]) == if note.Arrived? then Arrivals(notes) + [note.chunk] else Arrivals(notes)
  {
    var all := notes + [note];
    assert all[..|all| - 1] == notes && all[|notes|] == note;
  }

  // Everything the invariant reads from a history, one note later.
  lemma Appended(notes: seq<Note>, note: Note)
    ensures ExitAt(notes + [note]) ==
      if ExitAt(notes) < |notes| then ExitAt(notes) else if note.Exited? then |notes| else |notes| + 1
    ensures ObservedAt(notes + [note]) ==
      if ObservedAt(notes) < |notes| then ObservedAt(notes) else if note.Observed? then |notes| else |notes| + 1
    ensures forall k :: 0 <= k <= |notes| ==> (notes + [note])[..k] == notes[..k]
    ensures Parsing(notes + [note]) <==> Parsing(notes) || note.ParseSeen?
  {
    FirstAppended(notes, note, (n: Note) => n.Exited?);
    FirstAppended(notes, note, (n: Note) => n.Observed?);
    ParsingAppended(notes, note);
    hide First;
  }

  lemma FeedAppended(chunks: seq<Chunk>, chunk: Chunk, cap: nat)
    ensures Feed(chunks + [chunk], cap) == Collect(Feed(chunks, cap), chunk, cap)
  {
    assert (chunks + [chunk])[..|chunks|] == chunks;
  }

  lemma NoOutcomeYet(chunks: seq<Chunk>, cap: nat)
    ensures Feed(chunks, cap).outcome.None?
  {
    var _ := OutputCap(chunks, cap);
  }

  lemma FedStep(notes: seq<Note>, note: Note, cap: nat)
    ensures Feed(Arrivals(notes + [note]), cap) ==
      if note.Arrived? then Collect(Feed(Arrivals(notes), cap), note.chunk, cap) else Feed(Arrivals(notes), cap)
  {
    hide Arrivals;
    hide Feed;
    hide Collect;
    ArrivalsAppended(notes, note);
    if note.Arrived? {
      FeedAppended(Arrivals(notes), note.chunk, cap);
    }
  }

  lemma GrownStep(notes: seq<Note>, note: Note, cap: nat)
    ensures Grown(notes, cap).outcome.None?
    ensures Grown(notes + [note], cap) ==
      match note
      case Arrived(chunk) => Collect(Grown(notes, cap), chunk, cap)
      case TimerFired => Grown(notes, cap).(timedOut := true)
      case ErrorSeen => Grown(notes, cap).(spawnError := true)
      case _ => Grown(notes, cap)
  {
    hide Arrivals;
    hide Feed;
    FedStep(notes, note, cap);
    InAppended(notes, note, TimerFired);
    InAppended(notes, note, ErrorSeen);
    NoOutcomeYet(Arrivals(notes), cap);
  }

  // ----- The invariant -----

  // What has been emitted, by where the generator stands.
  predicate Shape(pc: Pc, kinds: seq<EventType>, terminal: Option<EventType>) {
    match pc
    case Created => kinds == []
    case AtStarted => kinds == [RunStarted]
    case AwaitExit => kinds == [RunStarted]
    case AwaitParse => kinds == [RunStarted]
    case AtMessage(_) => kinds == [RunStarted, MessageCompleted]
    case AtArtifact(_) => kinds == [RunStarted, MessageCompleted, ArtifactCreated]
    case AtUsage => kinds == [RunStarted, MessageCompleted, ArtifactCreated, UsageUpdated]
    case AtTerminal => EndsOnce(kinds) && terminal == Some(kinds[|kinds| - 1])
    case Finished => EndsOnce(kinds) && terminal == Some(kinds[|kinds| - 1])
    case Threw => Open(kinds)
    case Abandoned => forall k :: 0 <= k < |kinds| - 1 ==> !TerminalType(kinds[k])
  }

  ghost predicate Streams(s: State) {
    Numbered(s.emitter) && Shape(s.pc, Kinds(s.emitter), s.terminal)
  }

  predicate HasExit(notes: seq<Note>) {
    ExitAt(notes) < |notes|
  }

  predicate OneExit(notes: seq<Note>) {
    forall k :: ExitAt(notes) < k < |notes| ==> !notes[k].Exited?
  }

  function Told(notes: seq<Note>, cap: nat): Child {
    var exit := ExitAt(notes);
    if exit < |notes| then Close(Grown(notes[..exit], cap), notes[exit].code) else Grown(notes, cap)
  }

  // The child is what the notes before its exit make of it; without a child only cancels happened.
  ghost predicate ChildTold(notes: seq<Note>, exit: Exit, cap: nat) {
    && OneExit(notes)
    && (HasExit(notes) ==> exit.Owned?)
    && (exit.Owned? ==> exit.child == Told(notes, cap) && (exit.child.outcome.Some? <==> HasExit(notes)))
    && (!exit.Owned? ==> forall k :: 0 <= k < |notes| ==> notes[k].CancelAccepted?)
  }

  // The exit is observed once, after it happened, and the flag tells whether a cancel was accepted.
  ghost predicate FlagsTold(notes: seq<Note>, cancelRequested: bool) {
    && (cancelRequested <==> CancelAccepted in notes)
    && (forall k :: ObservedAt(notes) < k < |notes| ==> !notes[k].Observed?)
    && (ObservedAt(notes) < |notes| ==> ExitAt(notes) < ObservedAt(notes))
    && (Parsing(notes) ==> HasExit(notes))
  }

  predicate Pending(notes: seq<Note>) {
    ObservedAt(notes) == |notes| && !Parsing(notes)
  }

  predicate Passed(notes: seq<Note>, cap: nat) {
    HasExit(notes) && ObservedAt(notes) < |notes| && Undisturbed(notes, ExitAt(notes), ObservedAt(notes), cap)
  }

  predicate Succeeds(notes: seq<Note>, cap: nat) {
    Passed(notes, cap) && ParsedWell(notes) && notes[ExitAt(notes)].code == Some(0)
  }

  predicate Decided(notes: seq<Note>, cap: nat, kind: EventType) {
    && HasExit(notes) && ObservedAt(notes) < |notes|
    && kind == Expected(notes, ExitAt(notes), ObservedAt(notes), cap)
  }

  predicate Broken(notes: seq<Note>) {
    ParseSeen(Nothing) in notes && HasExit(notes) && notes[ExitAt(notes)].code != Some(0)
  }

  // What is known where the generator stands.
  ghost predicate Stands(pc: Pc, notes: seq<Note>, cap: nat, terminal: Option<EventType>, exit: Exit) {
    match pc
    case Created => Pending(notes) && terminal.None? && exit.Unset?
    case AtStarted => Pending(notes) && terminal.None? && exit.Unset?
    case AwaitExit => Pending(notes) && terminal.None? && exit.Owned?
    case AwaitParse => Passed(notes, cap) && !Parsing(notes) && terminal.None?
    case AtMessage(_) => Succeeds(notes, cap) && terminal.None?
    case AtArtifact(_) => Succeeds(notes, cap) && terminal.None?
    case AtUsage => Succeeds(notes, cap) && terminal.None?
    case AtTerminal => terminal.Some? && Decided(notes, cap, terminal.value)
    case Finished => terminal.Some? && Decided(notes, cap, terminal.value)
    case Threw => terminal.Some? <==> Broken(notes)
    case Abandoned => terminal.Some? ==> HasExit(notes)
  }

  ghost predicate CallsTold(calls: seq<Call>, childClosed: bool) {
    forall c :: 0 <= c < |calls| && calls[c].stage.Answered? && calls[c].stage.result.confirmed ==> childClosed
  }

  ghost predicate Inv(s: State) {
    && Streams(s) && ChildTold(s.notes, s.exit, s.cap) && FlagsTold(s.notes, s.cancelRequested)
    && Stands(s.pc, s.notes, s.cap, s.terminal, s.exit) && CallsTold(s.calls, ChildClosed(s))
  }

  // ----- Every step keeps it -----

  // Before the child exists only cancels are noted.
  lemma {:induction false} QuietNotes(notes: seq<Note>, cap: nat)
    requires forall k :: 0 <= k < |notes| ==> notes[k].CancelAccepted?
    ensures Arrivals(notes) == [] && ExitAt(notes) == |notes| && Grown(notes, cap) == Spawned()
  {
    assert TimerFired !in notes && ErrorSeen !in notes;
    if notes != [] {
      QuietNotes(notes[..|notes| - 1], cap);
    }
  }

  lemma YieldStreams(s: State, id: nat, kind: EventType, pc: Pc)
    requires Streams(s) && Unused(s.emitter, id) && Shape(pc, Kinds(s.emitter) + [kind], s.terminal)
    ensures Streams(Yield(s, id, kind, pc))
  {
    EmitNumbers(s.emitter, id, kind);
    hide Numbered;
    hide Kinds;
    hide Emit;
  }

  lemma YieldTerminalStreams(s: State, id: nat, kind: EventType)
    requires Streams(s) && Unused(s.emitter, id) && TerminalType(kind)
    requires Open(Kinds(s.emitter))
    ensures Streams(YieldTerminal(s, id, kind))
  {
    EmitNumbers(s.emitter, id, kind);
    EndsOnceAppend(Kinds(s.emitter), kind);
    hide Numbered;
    hide Kinds;
    hide Emit;
  }

  lemma PullStreams(s: State, id: nat, ok: bool)
    requires Streams(s) && Unused(s.emitter, id)
    ensures Streams(OnPull(s, id, ok))
  {
    match s.pc {
      case Created =>
        if !s.closed && s.exit.Unset? && ok {
          YieldStreams(s, id, RunStarted, AtStarted);
        }
      case AtMessage(usage) => YieldStreams(s.(artifacts := s.artifacts + 1), id, ArtifactCreated, AtArtifact(usage));
      case AtArtifact(usage) =>
        if usage {
          YieldStreams(s, id, UsageUpdated, AtUsage);
        } else {
          YieldTerminalStreams(s, id, RunSucceeded);
        }
      case AtUsage => YieldTerminalStreams(s, id, RunSucceeded);
      case _ =>
    }
    hide Numbered;
    hide Kinds;
    hide Yield;
  }

  lemma SuccessDecided(notes: seq<Note>, cap: nat)
    requires Succeeds(notes, cap)
    ensures Decided(notes, cap, RunSucceeded)
  {
  }

  // A pull that spawns nothing moves only the generator.
  lemma PulledKeeps(s: State, t: State)
    requires Inv(s) && Streams(t) && Stands(t.pc, s.notes, s.cap, t.terminal, s.exit)
    requires t == s.(emitter := t.emitter, terminal := t.terminal, artifacts := t.artifacts, pc := t.pc)
    ensures Inv(t)
  {
    hide Streams;
    hide ChildTold;
    hide FlagsTold;
    hide Stands;
    hide CallsTold;
  }

  lemma PendingUnbroken(notes: seq<Note>)
    requires Pending(notes)
    ensures !Broken(notes)
  {
    hide First;
  }

  lemma PullStands(s: State, id: nat, ok: bool)
    requires Stands(s.pc, s.notes, s.cap, s.terminal, s.exit) && !s.pc.AtStarted?
    ensures var t := OnPull(s, id, ok); Stands(t.pc, s.notes, s.cap, t.terminal, s.exit)
  {
    hide Pending;
    hide Passed;
    hide Succeeds;
    hide Decided;
    hide Broken;
    hide Emit;
    if s.pc.Created? {
      PendingUnbroken(s.notes);
    }
    if s.pc.AtArtifact? || s.pc.AtUsage? {
      SuccessDecided(s.notes, s.cap);
    }
  }

  // Nothing has happened to a child that was just spawned.
  lemma SpawnTold(notes: seq<Note>, exit: Exit, cap: nat)
    requires ChildTold(notes, exit, cap) && exit.Unset?
    ensures ChildTold(notes, Owned(Spawned()), cap) && ChildTold(notes, SpawnRejected, cap)
  {
    QuietNotes(notes, cap);
    hide Grown;
    hide Arrivals;
    hide ExitAt;
  }

  lemma SpawnKeeps(s: State, id: nat, ok: bool)
    requires Inv(s) && s.pc.AtStarted? && Streams(OnPull(s, id, ok))
    ensures Inv(OnPull(s, id, ok))
  {
    hide Streams;
    hide FlagsTold;
    hide ChildTold;
    hide Pending;
    hide Broken;
    assert Pending(s.notes);
    PendingUnbroken(s.notes);
    SpawnTold(s.notes, s.exit, s.cap);
  }

  lemma PullKeeps(s: State, id: nat, ok: bool)
    requires Inv(s) && Unused(s.emitter, id)
    ensures Inv(OnPull(s, id, ok))
  {
    PullStreams(s, id, ok);
    if s.pc.AtStarted? {
      SpawnKeeps(s, id, ok);
      hide Inv;
    } else {
      PullStands(s, id, ok);
      hide Stands;
      hide Inv;
      hide Emit;
      PulledKeeps(s, OnPull(s, id, ok));
    }
  }

  // A note that is neither the observation nor the parse, and no second exit, settles nothing.
  predicate Neutral(notes: seq<Note>, note: Note) {
    && !note.Observed? && !note.ParseSeen?
    && (note.Exited? ==> !HasExit(notes) && !Parsing(notes))
  }

  lemma NeutralPending(notes: seq<Note>, note: Note)
    requires Neutral(notes, note)
    ensures Pending(notes) ==> Pending(notes + [note])
    ensures Parsing(notes + [note]) <==> Parsing(notes)
    ensures HasExit(notes) ==> HasExit(notes + [note]) && ExitAt(notes + [note]) == ExitAt(notes)
  {
    Appended(notes, note);
    hide Parsing;
    hide First;
  }

  lemma NeutralPrefixes(notes: seq<Note>, note: Note, cap: nat)
    requires HasExit(notes) && ObservedAt(notes) < |notes|
    ensures var all := notes + [note];
      && HasExit(all) && ExitAt(all) == ExitAt(notes) && ObservedAt(all) == ObservedAt(notes)
      && all[..ExitAt(all)] == notes[..ExitAt(notes)] && all[..ObservedAt(all)] == notes[..ObservedAt(notes)]
      && all[ExitAt(all)] == notes[ExitAt(notes)]
  {
    Appended(notes, note);
    hide Parsing;
    hide First;
  }

  lemma NeutralParsed(notes: seq<Note>, note: Note)
    requires !note.ParseSeen?
    ensures ParsedWell(notes + [note]) <==> ParsedWell(notes)
    ensures ParseSeen(Nothing) in notes + [note] <==> ParseSeen(Nothing) in notes
  {
    InAppended(notes, note, ParseSeen(Parsed(true, false)));
    InAppended(notes, note, ParseSeen(Parsed(true, true)));
    InAppended(notes, note, ParseSeen(Nothing));
  }

  lemma NeutralSettled(notes: seq<Note>, note: Note, cap: nat)
    requires Neutral(notes, note) && HasExit(notes) && ObservedAt(notes) < |notes|
    ensures Undisturbed(notes, ExitAt(notes), ObservedAt(notes), cap) ==>
      Undisturbed(notes + [note], ExitAt(notes + [note]), ObservedAt(notes + [note]), cap)
    ensures Passed(notes, cap) ==> Passed(notes + [note], cap)
    ensures Succeeds(notes, cap) ==> Succeeds(notes + [note], cap)
    ensures forall kind :: Decided(notes, cap, kind) ==> Decided(notes + [note], cap, kind)
  {
    NeutralPrefixes(notes, note, cap);
    NeutralParsed(notes, note);
    hide ExitAt;
    hide ObservedAt;
    hide ParsedWell;
    hide Arrivals;
    hide Parsing;
    hide Total;
  }

  lemma NeutralBroken(notes: seq<Note>, note: Note)
    requires Neutral(notes, note)
    ensures Broken(notes + [note]) <==> Broken(notes)
  {
    Appended(notes, note);
    NeutralParsed(notes, note);
    if ParseSeen(Nothing) in notes {
      assert Parsing(notes);
    }
    hide Parsing;
    hide First;
  }

  lemma NeutralStands(s: State, note: Note)
    requires Stands(s.pc, s.notes, s.cap, s.terminal, s.exit) && Neutral(s.notes, note)
    ensures Stands(s.pc, s.notes + [note], s.cap, s.terminal, s.exit)
  {
    NeutralPending(s.notes, note);
    NeutralBroken(s.notes, note);
    if HasExit(s.notes) && ObservedAt(s.notes) < |s.notes| {
      NeutralSettled(s.notes, note, s.cap);
    }
    hide Broken;
    hide Pending;
    hide Parsing;
    hide Undisturbed;
    hide Expected;
    hide ParsedWell;
    hide ExitAt;
    hide ObservedAt;
  }

  lemma NeutralFlags(notes: seq<Note>, note: Note, cancelRequested: bool)
    requires FlagsTold(notes, cancelRequested) && Neutral(notes, note)
    ensures FlagsTold(notes + [note], cancelRequested || note.CancelAccepted?)
  {
    Appended(notes, note);
    InAppended(notes, note, CancelAccepted);
    hide Parsing;
    hide First;
  }

  lemma ToldStep(notes: seq<Note>, note: Note, cap: nat)
    requires Neutral(notes, note)
    ensures Told(notes + [note], cap) ==
      if HasExit(notes) then Told(notes, cap)
      else
        match note
        case Arrived(chunk) => Collect(Told(notes, cap), chunk, cap)
        case TimerFired => Told(notes, cap).(timedOut := true)
        case ErrorSeen => Told(notes, cap).(spawnError := true)
        case Exited(code) => Close(Told(notes, cap), code)
        case _ => Told(notes, cap)
    ensures HasExit(notes + [note]) <==> HasExit(notes) || note.Exited?
  {
    Appended(notes, note);
    GrownStep(notes, note, cap);
    hide Grown;
    hide First;
    hide Parsing;
  }

  lemma ToldOutcome(notes: seq<Note>, cap: nat)
    ensures Told(notes, cap).outcome.Some? <==> HasExit(notes)
  {
    var exit := ExitAt(notes);
    NoOutcomeYet(Arrivals(notes), cap);
    NoOutcomeYet(Arrivals(notes[..exit]), cap);
    hide ExitAt;
    hide Arrivals;
    hide Feed;
  }

  lemma NeutralExits(notes: seq<Note>, note: Note)
    requires Neutral(notes, note) && OneExit(notes)
    ensures OneExit(notes + [note])
  {
    Appended(notes, note);
    hide First;
    hide Parsing;
  }

  lemma NeutralChild(notes: seq<Note>, note: Note, exit: Exit, cap: nat)
    requires ChildTold(notes, exit, cap) && Neutral(notes, note)
    requires note.CancelAccepted? || (exit.Owned? && !HasExit(notes))
    ensures ChildTold(notes + [note], if exit.Owned? then Owned(Told(notes + [note], cap)) else exit, cap)
  {
    ToldStep(notes, note, cap);
    ToldOutcome(notes + [note], cap);
    NeutralExits(notes, note);
    hide Told;
    hide HasExit;
    hide Neutral;
    hide OneExit;
  }

  // ----- cancel and close -----

  lemma TerminalClosed(s: State)
    requires Stands(s.pc, s.notes, s.cap, s.terminal, s.exit) && ChildTold(s.notes, s.exit, s.cap)
    ensures s.terminal.Some? ==> ChildClosed(s)
  {
  }

  lemma CancelChild(notes: seq<Note>, exit: Exit, cap: nat)
    requires ChildTold(notes, exit, cap)
    ensures ChildTold(notes + [CancelAccepted], exit, cap)
  {
    NeutralChild(notes, CancelAccepted, exit, cap);
    ToldStep(notes, CancelAccepted, cap);
    assert exit.Owned? ==> Owned(Told(notes + [CancelAccepted], cap)) == exit;
    hide ChildTold;
    hide Told;
  }

  lemma AcceptKeeps(s: State)
    requires Inv(s)
    ensures Inv(Noted(s.(cancelRequested := true), CancelAccepted))
  {
    NeutralStands(s, CancelAccepted);
    NeutralFlags(s.notes, CancelAccepted, s.cancelRequested);
    CancelChild(s.notes, s.exit, s.cap);
    hide Stands;
    hide FlagsTold;
    hide ChildTold;
    hide Numbered;
    hide Kinds;
    hide Shape;
  }

  predicate Honest(s: State, call: Call) {
    call.stage.Answered? && call.stage.result.confirmed ==> ChildClosed(s)
  }

  lemma CallAdded(s: State, call: Call)
    requires Inv(s) && Honest(s, call)
    ensures Inv(s.(calls := s.calls + [call]))
  {
    hide Numbered;
    hide Kinds;
    hide Shape;
    hide FlagsTold;
    hide ChildTold;
    hide Stands;
  }

  lemma CallMoved(s: State, c: nat, call: Call, closed: bool)
    requires Inv(s) && c < |s.calls| && Honest(s, call)
    ensures Inv(s.(calls := s.calls[c := call], closed := closed))
  {
    hide Numbered;
    hide Kinds;
    hide Shape;
    hide FlagsTold;
    hide ChildTold;
    hide Stands;
  }

  lemma CancelKeeps(s: State, byClose: bool)
    requires Inv(s)
    ensures Inv(StartCancel(s, byClose))
  {
    TerminalClosed(s);
    AcceptKeeps(s);
    var t := Noted(s.(cancelRequested := true), CancelAccepted);
    if s.terminal.Some? {
      CallAdded(s, Call(Answered(CancelResult(false, true, true)), byClose));
    } else if !s.exit.Owned? {
      CallAdded(t, Call(Answered(CancelResult(true, false, false)), byClose));
    } else {
      CallAdded(t, Call(Killing, byClose));
    }
    hide Inv;
  }

  lemma ClosedFlag(s: State)
    requires Inv(s)
    ensures Inv(s.(closed := true))
  {
    hide Numbered;
    hide Kinds;
    hide Shape;
    hide FlagsTold;
    hide ChildTold;
    hide Stands;
  }

  lemma CloseKeeps(s: State)
    requires Inv(s)
    ensures Inv(StartClose(s))
  {
    hide Inv;
    hide StartCancel;
    CancelKeeps(s, true);
    ClosedFlag(s);
  }

  lemma CallKeeps(s: State, c: nat)
    requires Inv(s)
    ensures Inv(OnCall(s, c))
  {
    if c < |s.calls| {
      var call := s.calls[c];
      match call.stage {
        case Killing => CallMoved(s, c, call.(stage := AwaitingExit), s.closed);
        case AwaitingExit =>
          if ChildClosed(s) {
            var result := CancelResult(true, s.exit.child.outcome.value.closed, false);
            CallMoved(s, c, call.(stage := Answered(result)), s.closed);
          }
        case Answered(_) => CallMoved(s, c, call.(stage := Returned), true);
        case Returned =>
      }
    }
    hide Inv;
  }

  // ----- The child -----

  lemma ChildKeeps(s: State, child: Child, note: Note)
    requires Inv(s) && s.exit.Owned? && s.exit.child.outcome.None? && Neutral(s.notes, note) && !note.CancelAccepted?
    requires child == Told(s.notes + [note], s.cap)
    ensures Inv(OnChild(s, child, note))
  {
    NeutralStands(s, note);
    NeutralFlags(s.notes, note, s.cancelRequested);
    NeutralChild(s.notes, note, s.exit, s.cap);
    assert Stands(s.pc, s.notes + [note], s.cap, s.terminal, Owned(child));
    hide Stands;
    hide FlagsTold;
    hide Numbered;
    hide Kinds;
    hide Shape;
    hide Told;
  }

  lemma ArrivalKeeps(s: State, a: Action)
    requires Inv(s) && (a.ChunkArrives? || a.TimerFires? || a.ErrorEmitted? || a.CloseEmitted?)
    ensures Inv(Next(s, a))
  {
    if s.exit.Owned? && s.exit.child.outcome.None? {
      var note :=
        match a
        case ChunkArrives(chunk) => Arrived(chunk)
        case TimerFires => TimerFired
        case ErrorEmitted => ErrorSeen
        case CloseEmitted(code) => Exited(code)
        case _ => CancelAccepted;
      assert !HasExit(s.notes) && !Parsing(s.notes);
      ToldStep(s.notes, note, s.cap);
      ChildKeeps(s, Told(s.notes + [note], s.cap), note);
    }
    hide Inv;
    hide HasExit;
    hide Told;
    hide Neutral;
  }

  // ----- The generator after the exit -----

  // What the promise resolved with, read from the history.
  lemma OutcomeTold(notes: seq<Note>, cap: nat)
    requires HasExit(notes)
    ensures var exit, o := ExitAt(notes), Told(notes, cap).outcome;
      && o.Some? && o.value.code == notes[exit].code && o.value.closed
      && (o.value.timedOut <==> TimerFired in notes[..exit])
      && (o.value.outputExceeded <==> Total(Arrivals(notes[..exit])) > cap)
      && (o.value.spawnError <==> ErrorSeen in notes[..exit])
  {
    var chunks := Arrivals(notes[..ExitAt(notes)]);
    var _ := OutputCap(chunks, cap);
    hide ExitAt;
    hide Feed;
    hide Total;
    hide Arrivals;
    hide ByteLength;
  }

  // Noting what the generator saw moves neither the exit nor, once seen, the observation.
  lemma SeenPlaces(notes: seq<Note>, note: Note)
    requires HasExit(notes)
    requires if ObservedAt(notes) < |notes| then note.ParseSeen? else note.Observed?
    ensures var all := notes + [note];
      && HasExit(all) && ExitAt(all) == ExitAt(notes) && all[ExitAt(all)] == notes[ExitAt(notes)]
      && ObservedAt(all) == ObservedAt(notes) && ObservedAt(all) < |all|
      && all[..ExitAt(all)] == notes[..ExitAt(notes)] && all[..ObservedAt(all)] == notes[..ObservedAt(notes)]
      && (Parsing(all) <==> Parsing(notes) || note.ParseSeen?)
  {
    Appended(notes, note);
    hide First;
    hide Parsing;
  }

  lemma SeenKeeps(notes: seq<Note>, note: Note, exit: Exit, cap: nat, cancelRequested: bool)
    requires ChildTold(notes, exit, cap) && FlagsTold(notes, cancelRequested) && HasExit(notes)
    requires if ObservedAt(notes) < |notes| then note.ParseSeen? else note.Observed?
    ensures ChildTold(notes + [note], exit, cap) && FlagsTold(notes + [note], cancelRequested)
  {
    SeenPlaces(notes, note);
    InAppended(notes, note, CancelAccepted);
    hide ExitAt;
    hide ObservedAt;
    hide Grown;
    hide Parsing;
  }

  function Flagged(s: State): Option<EventType>
    requires ChildClosed(s)
  {
    var outcome := s.exit.child.outcome.value;
    if s.cancelRequested then Some(RunCancelled)
    else if outcome.timedOut then Some(RunTimedOut)
    else if outcome.outputExceeded || outcome.spawnError then Some(RunFailed)
    else None
  }

  lemma ExitJudged(s: State)
    requires ChildTold(s.notes, s.exit, s.cap) && FlagsTold(s.notes, s.cancelRequested) && ChildClosed(s)
      && Pending(s.notes)
    ensures match Flagged(s)
      case Some(kind) => Decided(s.notes + [Observed], s.cap, kind)
      case None => Passed(s.notes + [Observed], s.cap) && !Parsing(s.notes + [Observed])
  {
    SeenPlaces(s.notes, Observed);
    OutcomeTold(s.notes, s.cap);
    assert s.notes[..ObservedAt(s.notes)] == s.notes;
    hide ExitAt;
    hide ObservedAt;
    hide Told;
    hide Arrivals;
    hide Total;
    hide Parsing;
    hide ParsedWell;
  }

  lemma NoEndYet(s: State)
    requires Streams(s) && (s.pc.AwaitExit? || s.pc.AwaitParse?)
    ensures Open(Kinds(s.emitter))
  {
    hide Kinds;
    hide Numbered;
  }

  lemma NotedStreams(s: State, note: Note)
    requires Streams(s)
    ensures Streams(Noted(s, note))
  {
    hide Kinds;
    hide Numbered;
  }

  lemma DecidedStands(notes: seq<Note>, cap: nat, kind: EventType, exit: Exit)
    requires Decided(notes, cap, kind)
    ensures Stands(AtTerminal, notes, cap, Some(kind), exit)
  {
    hide Decided;
  }

  lemma SucceedsStands(notes: seq<Note>, cap: nat, usage: bool, exit: Exit)
    requires Succeeds(notes, cap)
    ensures Stands(AtMessage(usage), notes, cap, None, exit)
  {
    hide Succeeds;
  }

  // The verdict is stored and its event yielded.
  lemma EndKeeps(s: State, note: Note, id: nat, kind: EventType)
    requires Inv(s) && (s.pc.AwaitExit? || s.pc.AwaitParse?) && Unused(s.emitter, id) && TerminalType(kind)
    requires HasExit(s.notes) && if ObservedAt(s.notes) < |s.notes| then note.ParseSeen? else note.Observed?
    requires Decided(s.notes + [note], s.cap, kind)
    ensures Inv(YieldTerminal(Noted(s, note), id, kind))
  {
    hide Streams;
    hide ChildTold;
    hide FlagsTold;
    hide Stands;
    hide CallsTold;
    hide Decided;
    hide HasExit;
    hide ObservedAt;
    hide Kinds;
    hide Emit;
    SeenKeeps(s.notes, note, s.exit, s.cap, s.cancelRequested);
    NoEndYet(s);
    NotedStreams(s, note);
    YieldTerminalStreams(Noted(s, note), id, kind);
    DecidedStands(s.notes + [note], s.cap, kind, s.exit);
  }

  lemma GoesOn(s: State)
    requires Inv(s) && s.pc.AwaitExit? && HasExit(s.notes) && ObservedAt(s.notes) == |s.notes|
    requires Passed(s.notes + [Observed], s.cap) && !Parsing(s.notes + [Observed])
    ensures Inv(Noted(s, Observed).(pc := AwaitParse))
  {
    SeenKeeps(s.notes, Observed, s.exit, s.cap, s.cancelRequested);
    hide Kinds;
    hide Numbered;
    hide CallsTold;
    hide FlagsTold;
    hide ChildTold;
    hide Passed;
    hide Parsing;
    hide HasExit;
  }

  lemma ExitAwaited(s: State)
    requires Inv(s) && s.pc.AwaitExit? && ChildClosed(s)
    ensures ChildTold(s.notes, s.exit, s.cap) && FlagsTold(s.notes, s.cancelRequested) && Pending(s.notes)
    ensures HasExit(s.notes) && ObservedAt(s.notes) == |s.notes|
  {
    hide Streams;
    hide ObservedAt;
    hide ExitAt;
  }

  lemma ExitKeeps(s: State, id: nat)
    requires Inv(s) && Unused(s.emitter, id)
    ensures Inv(OnExit(s, id))
  {
    hide Inv;
    hide HasExit;
    hide Parsing;
    hide Pending;
    hide Decided;
    hide Passed;
    hide YieldTerminal;
    if s.pc.AwaitExit? && ChildClosed(s) {
      ExitAwaited(s);
      ExitJudged(s);
      hide ChildTold;
      hide FlagsTold;
      match Flagged(s) {
        case Some(kind) => EndKeeps(s, Observed, id, kind);
        case None => GoesOn(s);
      }
    }
  }

  lemma ParseJudged(s: State, parse: Parse)
    requires ChildTold(s.notes, s.exit, s.cap) && ChildClosed(s) && Passed(s.notes, s.cap) && !Parsing(s.notes)
    ensures var notes, code := s.notes + [ParseSeen(parse)], s.exit.child.outcome.value.code;
      && (parse.ParseThrows? ==> Decided(notes, s.cap, RunFailed))
      && (parse.Parsed? && (code != Some(0) || !parse.success) ==> Decided(notes, s.cap, RunFailed))
      && (parse.Parsed? && code == Some(0) && parse.success ==> Succeeds(notes, s.cap))
      && (Broken(notes) <==> parse.Nothing? && code != Some(0))
  {
    var note := ParseSeen(parse);
    SeenPlaces(s.notes, note);
    OutcomeTold(s.notes, s.cap);
    InAppended(s.notes, note, ParseSeen(Parsed(true, false)));
    InAppended(s.notes, note, ParseSeen(Parsed(true, true)));
    InAppended(s.notes, note, ParseSeen(Nothing));
    hide ExitAt;
    hide ObservedAt;
    hide Told;
    hide Arrivals;
    hide Total;
  }

  // A verdict stored without its event, or no verdict at all.
  lemma ThrowKeeps(s: State, note: Note, terminal: Option<EventType>)
    requires Inv(s) && s.pc.AwaitParse? && note.ParseSeen? && HasExit(s.notes) && ObservedAt(s.notes) < |s.notes|
    requires terminal.Some? <==> Broken(s.notes + [note])
    ensures Inv(Noted(s, note).(terminal := terminal, pc := Threw))
  {
    hide Kinds;
    hide Numbered;
    hide CallsTold;
    hide FlagsTold;
    hide ChildTold;
    hide Broken;
    hide HasExit;
    SeenKeeps(s.notes, note, s.exit, s.cap, s.cancelRequested);
    NoEndYet(s);
  }

  lemma MessageKeeps(s: State, note: Note, id: nat, usage: bool)
    requires Inv(s) && s.pc.AwaitParse? && note.ParseSeen? && HasExit(s.notes) && ObservedAt(s.notes) < |s.notes|
    requires Unused(s.emitter, id) && Succeeds(s.notes + [note], s.cap)
    ensures Inv(Yield(Noted(s, note), id, MessageCompleted, AtMessage(usage)))
  {
    hide ChildTold;
    hide FlagsTold;
    hide CallsTold;
    hide Succeeds;
    hide HasExit;
    hide ObservedAt;
    hide Passed;
    hide Parsing;
    hide Kinds;
    hide Emit;
    hide Numbered;
    SeenKeeps(s.notes, note, s.exit, s.cap, s.cancelRequested);
    NotedStreams(s, note);
    YieldStreams(Noted(s, note), id, MessageCompleted, AtMessage(usage));
    SucceedsStands(s.notes + [note], s.cap, usage, s.exit);
  }

  lemma ParseKeeps(s: State, id: nat, parse: Parse)
    requires Inv(s) && Unused(s.emitter, id)
    ensures Inv(OnParse(s, id, parse))
  {
    if s.pc.AwaitParse? && ChildClosed(s) {
      var note := ParseSeen(parse);
      ParseJudged(s, parse);
      assert HasExit(s.notes) && ObservedAt(s.notes) < |s.notes| && s.terminal.None?;
      hide Inv;
      hide Broken;
      hide Decided;
      hide Succeeds;
      var code := s.exit.child.outcome.value.code;
      match parse {
        case ParseThrows => EndKeeps(s, note, id, RunFailed);
        case Nothing => ThrowKeeps(s, note, if code != Some(0) then Some(RunFailed) else None);
        case Parsed(success, usage) =>
          if code != Some(0) || !success {
            EndKeeps(s, note, id, RunFailed);
          } else {
            MessageKeeps(s, note, id, usage);
          }
      }
      hide YieldTerminal;
      hide Yield;
      hide HasExit;
    } else {
      hide Inv;
    }
  }

  lemma ReturnKeeps(s: State)
    requires Inv(s) && AtYield(s.pc)
    ensures Inv(s.(pc := Abandoned))
  {
    hide Kinds;
    hide Numbered;
    hide FlagsTold;
    hide ChildTold;
    hide ExitAt;
  }

  lemma GeneratorKeeps(s: State, a: Action)
    requires Inv(s) && (a.Pull? || a.ConsumerReturns? || a.ExitResumes? || a.ParseResumes?)
    ensures Inv(Next(s, a))
  {
    match a {
      case Pull(id, ok) => if Unused(s.emitter, id) { PullKeeps(s, id, ok); }
      case ConsumerReturns => if AtYield(s.pc) { ReturnKeeps(s); }
      case ExitResumes(id) => if Unused(s.emitter, id) { ExitKeeps(s, id); }
      case ParseResumes(id, parse) => if Unused(s.emitter, id) { ParseKeeps(s, id, parse); }
    }
    hide Inv;
    hide OnPull;
    hide OnExit;
    hide OnParse;
    hide Unused;
    hide AtYield;
  }

  lemma ClientKeeps(s: State, a: Action)
    requires Inv(s) && (a.Cancel? || a.CloseSession? || a.CallResumes?)
    ensures Inv(Next(s, a))
  {
    hide Inv;
    hide StartCancel;
    hide StartClose;
    hide OnCall;
    match a {
      case Cancel => CancelKeeps(s, false);
      case CloseSession => CloseKeeps(s);
      case CallResumes(c) => CallKeeps(s, c);
    }
  }

  lemma NextKeeps(s: State, a: Action)
    requires Inv(s)
    ensures Inv(Next(s, a))
  {
    hide Inv;
    hide Next;
    if a.Pull? || a.ConsumerReturns? || a.ExitResumes? || a.ParseResumes? {
      GeneratorKeeps(s, a);
    } else if a.Cancel? || a.CloseSession? || a.CallResumes? {
      ClientKeeps(s, a);
    } else {
      ArrivalKeeps(s, a);
    }
  }

  lemma {:induction false} ExecKeeps(s: State, actions: seq<Action>)
    requires Inv(s)
    ensures Inv(Exec(s, actions))
    decreases |actions|
  {
    hide Inv;
    hide Next;
    if actions != [] {
      NextKeeps(s, actions[0]);
      ExecKeeps(Next(s, actions[0]), actions[1..]);
    }
  }

  lemma Reachable(cap: nat, binding: Binding, actions: seq<Action>)
    ensures Inv(Exec(Init(cap, binding), actions))
  {
    var s := Init(cap, binding);
    assert Kinds(s.emitter) == [];
    assert !Parsing([]);
    assert Inv(s);
    hide Inv;
    ExecKeeps(s, actions);
  }

  // ----- The theorems -----

  // A fully consumed stream has exactly one terminal event, it is last, state.terminal is its
  // type, and that type is the reference outcome of what happened around the run's one exit and
  // the moment it was observed.  In particular any cancel accepted before that moment wins.
  lemma RunOutcome(cap: nat, binding: Binding, actions: seq<Action>) returns (exit: nat, observed: nat)
    requires Exec(Init(cap, binding), actions).pc.Finished?
    ensures var s := Exec(Init(cap, binding), actions);
      && exit < observed < |s.notes| && s.notes[exit].Exited? && s.notes[observed] == Observed
      && (forall k :: 0 <= k < |s.notes| && k != exit ==> !s.notes[k].Exited?)
      && (forall k :: 0 <= k < |s.notes| && k != observed ==> !s.notes[k].Observed?)
      && EndsOnce(Kinds(s.emitter))
      && Kinds(s.emitter)[|Kinds(s.emitter)| - 1] == Expected(s.notes, exit, observed, s.cap)
      && s.terminal == Some(Expected(s.notes, exit, observed, s.cap))
  {
    Reachable(cap, binding, actions);
    var s := Exec(Init(cap, binding), actions);
    exit, observed := ExitAt(s.notes), ObservedAt(s.notes);
  }

  // cancel answers confirmed, in any of its forms, only when the owned child has emitted close.
  lemma HonestCancellation(cap: nat, binding: Binding, actions: seq<Action>, c: nat)
    requires var s := Exec(Init(cap, binding), actions);
      c < |s.calls| && s.calls[c].stage.Answered? && s.calls[c].stage.result.confirmed
    ensures ChildClosed(Exec(Init(cap, binding), actions))
  {
    Reachable(cap, binding, actions);
  }

  // Every fully consumed stream is accepted by the checker and carries the five identities.
  lemma StreamPasses(cap: nat, binding: Binding, actions: seq<Action>)
    requires Exec(Init(cap, binding), actions).pc.Finished?
    ensures var events := Exec(Init(cap, binding), actions).emitter.events;
      && Monotonic(events) && |Terminals(events)| == 1 && Terminals(events)[0] == events[|events| - 1]
      && forall k :: 0 <= k < |events| ==> events[k].binding == binding
  {
    Reachable(cap, binding, actions);
    BindingKept(Init(cap, binding), actions);
    GoodStreamsPass(Exec(Init(cap, binding), actions).emitter);
  }

  lemma GeneratorBinding(s: State, id: nat, ok: bool, parse: Parse)
    ensures OnPull(s, id, ok).emitter.binding == s.emitter.binding && OnPull(s, id, ok).cap == s.cap
    ensures OnExit(s, id).emitter.binding == s.emitter.binding && OnExit(s, id).cap == s.cap
    ensures OnParse(s, id, parse).emitter.binding == s.emitter.binding && OnParse(s, id, parse).cap == s.cap
  {
    hide ChildClosed;
  }

  lemma NextBinding(s: State, a: Action)
    ensures Next(s, a).emitter.binding == s.emitter.binding && Next(s, a).cap == s.cap
  {
    hide Unused;
    hide Collect;
    hide Close;
    hide OnPull;
    hide OnExit;
    hide OnParse;
    match a {
      case Pull(id, ok) => GeneratorBinding(s, id, ok, Nothing);
      case ExitResumes(id) => GeneratorBinding(s, id, true, Nothing);
      case ParseResumes(id, parse) => GeneratorBinding(s, id, true, parse);
      case _ =>
    }
  }

  lemma {:induction false} BindingKept(s: State, actions: seq<Action>)
    ensures Exec(s, actions).emitter.binding == s.emitter.binding && Exec(s, actions).cap == s.cap
    decreases |actions|
  {
    hide Next;
    if actions != [] {
      NextBinding(s, actions[0]);
      BindingKept(Next(s, actions[0]), actions[1..]);
    }
  }

  // The generator can store a verdict and then throw without yielding it.  That happens exactly
  // when parseOutput returned no object and the exit code was not zero.
  lemma VerdictWithoutEvent(cap: nat, binding: Binding, actions: seq<Action>)
    requires Exec(Init(cap, binding), actions).pc.Threw?
    ensures var s := Exec(Init(cap, binding), actions);
      s.terminal.Some? <==>
      ParseSeen(Nothing) in s.notes &&
      exists k :: 0 <= k < |s.notes| && s.notes[k].Exited? && s.notes[k].code != Some(0)
  {
    Reachable(cap, binding, actions);
    var s := Exec(Init(cap, binding), actions);
    if ParseSeen(Nothing) in s.notes {
      assert Parsing(s.notes);
    }
  }

  // A schedule that lets the child exit with `code` and waits for parseOutput.
  function ToParse(code: Option<int>): seq<Action> {
    [Pull(0, true), Pull(1, true), CloseEmitted(code), ExitResumes(1)]
  }

  predicate Parses(s: State, code: Option<int>) {
    && s.pc == AwaitParse && s.terminal.None? && s.calls == []
    && ChildClosed(s) && s.exit.child.outcome.value.closed && s.exit.child.outcome.value.code == code
    && Below(s.emitter, 1) && Kinds(s.emitter) == [RunStarted]
  }

  lemma ParseReached(cap: nat, binding: Binding, code: Option<int>)
    ensures Parses(Exec(Init(cap, binding), ToParse(code)), code)
  {
    var s0, a := Init(cap, binding), ToParse(code);
    var s1 := Next(s0, a[0]);
    var s2 := Next(s1, a[1]);
    var s3 := Next(s2, a[2]);
    var s4 := Next(s3, a[3]);
    assert s1.pc == AtStarted && s2.pc == AwaitExit && s3.exit.child.outcome.Some? && s4.pc == AwaitParse;
    assert Parses(s4, code);
    hide Next;
    hide Parses;
    Chain(s0, a, [s0, s1, s2, s3, s4]);
  }

  // A schedule that gets there.
  lemma VerdictWithoutEventHappens(cap: nat, binding: Binding)
    ensures exists actions :: var s := Exec(Init(cap, binding), actions);
      s.pc.Threw? && s.terminal == Some(RunFailed) && Kinds(s.emitter) == [RunStarted]
  {
    ParseReached(cap, binding, Some(1));
    ExecThen(Init(cap, binding), ToParse(Some(1)), ParseResumes(1, Nothing));
    hide Exec;
    hide Init;
    hide ToParse;
    hide Kinds;
  }

  // A schedule that delivers the message of a successful run.
  function ToMessage(): seq<Action> {
    ToParse(Some(0)) + [ParseResumes(1, Parsed(true, false))]
  }

  lemma MessageDelivered(cap: nat, binding: Binding)
    ensures var s := Exec(Init(cap, binding), ToMessage());
      && s.pc == AtMessage(false) && s.terminal.None? && ChildClosed(s) && s.exit.child.outcome.value.closed
      && s.calls == [] && Below(s.emitter, 2)
  {
    var s := Exec(Init(cap, binding), ToParse(Some(0)));
    ParseReached(cap, binding, Some(0));
    ExecThen(Init(cap, binding), ToParse(Some(0)), ParseResumes(1, Parsed(true, false)));
    BelowEmit(s.emitter, 1, MessageCompleted);
    hide Exec;
    hide Init;
    hide ToParse;
    hide Kinds;
    hide Below;
    hide Emit;
  }

  // The three pulls after the message, whatever calls are open.
  lemma PullsToSuccess(s: State)
    requires s.pc == AtMessage(false) && Below(s.emitter, 2)
    ensures var t := Exec(s, [Pull(2, true), Pull(3, true), Pull(4, true)]);
      t.pc.Finished? && t.terminal == Some(RunSucceeded) && t.calls == s.calls
  {
    hide Below;
    hide Unused;
    hide Emit;
    BelowEmit(s.emitter, 2, ArtifactCreated);
    BelowEmit(Emit(s.emitter, 2, ArtifactCreated), 3, RunSucceeded);
    BelowEmit(Emit(Emit(s.emitter, 2, ArtifactCreated), 3, RunSucceeded), 4, RunSucceeded);
    var a := [Pull(2, true), Pull(3, true), Pull(4, true)];
    var s1 := Next(s, a[0]);
    var s2 := Next(s1, a[1]);
    var s3 := Next(s2, a[2]);
    assert s1.pc == AtArtifact(false) && s2.pc == AtTerminal && s2.terminal == Some(RunSucceeded);
    Chain(s, a, [s, s1, s2, s3]);
  }

  // A cancel and the two resumptions of its call, once the child is gone.
  lemma CancelsLate(s: State)
    requires s.terminal.None? && s.calls == [] && ChildClosed(s) && s.exit.child.outcome.value.closed
    ensures var t := Exec(s, [Cancel, CallResumes(0), CallResumes(0)]);
      && t.calls == [Call(Answered(CancelResult(true, true, false)), false)]
      && t.pc == s.pc && t.emitter == s.emitter
  {
    var a := [Cancel, CallResumes(0), CallResumes(0)];
    var s1 := Next(s, a[0]);
    var s2 := Next(s1, a[1]);
    var s3 := Next(s2, a[2]);
    assert s3.calls == [Call(Answered(CancelResult(true, true, false)), false)] && s3.pc == s.pc
      && s3.emitter == s.emitter;
    hide Next;
    Chain(s, a, [s, s1, s2, s3]);
  }

  // Cancelling too late: the call answers cancelled and confirmed, and the run succeeds.  By
  // RunOutcome a cancel decides the outcome exactly when it is accepted before the observation.
  lemma LateCancelStillSucceeds(cap: nat, binding: Binding) returns (actions: seq<Action>)
    ensures var s := Exec(Init(cap, binding), actions);
      && s.pc.Finished? && s.terminal == Some(RunSucceeded)
      && s.calls == [Call(Answered(CancelResult(true, true, false)), false)]
  {
    hide Exec;
    hide ToMessage;
    hide Next;
    hide Below;
    var cancel := [Cancel, CallResumes(0), CallResumes(0)];
    var pulls := [Pull(2, true), Pull(3, true), Pull(4, true)];
    actions := ToMessage() + cancel + pulls;
    MessageDelivered(cap, binding);
    ExecJoins(Init(cap, binding), ToMessage(), cancel);
    ExecJoins(Init(cap, binding), ToMessage() + cancel, pulls);
    CancelsLate(Exec(Init(cap, binding), ToMessage()));
    PullsToSuccess(Exec(Init(cap, binding), ToMessage() + cancel));
  }

  lemma {:induction false} ExecJoins(s: State, first: seq<Action>, second: seq<Action>)
    ensures Exec(s, first + second) == Exec(Exec(s, first), second)
    decreases |first|
  {
    hide Next;
    if first == [] {
      assert first + second == second;
    } else {
      assert (first + second)[1..] == first[1..] + second;
      ExecJoins(Next(s, first[0]), first[1..], second);
    }
  }

  lemma {:induction false} Chain(s: State, actions: seq<Action>, states: seq<State>)
    requires |states| == |actions| + 1 && states[0] == s
    requires forall k :: 0 <= k < |actions| ==> states[k + 1] == Next(states[k], actions[k])
    ensures Exec(s, actions) == states[|actions|]
    decreases |actions|
  {
    hide Next;
    if actions != [] {
      assert states[1] == Next(states[0], actions[0]);
      forall k | 0 <= k < |actions| - 1
        ensures states[1..][k + 1] == Next(states[1..][k], actions[1..][k])
      {
        assert states[k + 2] == Next(states[k + 1], actions[k + 1]);
      }
      Chain(states[1], actions[1..], states[1..]);
    }
  }
}
