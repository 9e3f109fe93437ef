// What one local-model run promises, over every interleaving of the HTTP answers, the timer,
// pulls, cancels and closes.
module LocalTheorems {
  import opened Wrappers
  import opened Histories
  import opened Events
  import opened LocalModel

  // ----- Reading a history -----

  function AbortAt(notes: seq<Note>): nat {
    First(notes, (n: Note) => n.Aborted?)
  }

  function SettledAt(notes: seq<Note>): nat {
    First(notes, (n: Note) => n.Settled?)
  }

  // The reference outcome: an output succeeds; a throw is a cancellation exactly when an abort
  // came before it.
  function Verdict(notes: seq<Note>): Option<EventType> {
    var settled := SettledAt(notes);
    if settled == |notes| then None
    else if notes[settled].ok then Some(RunSucceeded)
    else if AbortAt(notes) < settled then Some(RunCancelled)
    else Some(RunFailed)
  }

  lemma VerdictAppended(notes: seq<Note>, note: Note)
    ensures Verdict(notes).Some? ==> Verdict(notes + [note]) == Verdict(notes)
    ensures Verdict(notes).None? ==>
      Verdict(notes + [note]) ==
        if note.Aborted? then None
        else if note.ok then Some(RunSucceeded)
        else if AbortAt(notes) < |notes| then Some(RunCancelled)
        else Some(RunFailed)
    ensures AbortAt(notes + [note]) < |notes| + 1 <==> AbortAt(notes) < |notes| || note.Aborted?
  {
    FirstAppended(notes, note, (n: Note) => n.Aborted?);
    FirstAppended(notes, note, (n: Note) => n.Settled?);
    hide First;
  }

  // ----- The invariant -----

  predicate Shape(pc: Pc, kinds: seq<EventType>, terminal: Option<EventType>) {
    match pc
    case Created => kinds == [] && terminal.None?
    case AtTerminal => EndsOnce(kinds) && terminal == Some(kinds[|kinds| - 1])
    case Finished => EndsOnce(kinds) && terminal == Some(kinds[|kinds| - 1])
    case Abandoned => forall k :: 0 <= k < |kinds| - 1 ==> !TerminalType(kinds[k])
    case _ => Open(kinds) && terminal.None?
  }

  ghost predicate Streams(pc: Pc, emitter: Emitter, terminal: Option<EventType>) {
    Numbered(emitter) && Shape(pc, Kinds(emitter), terminal)
  }

  ghost predicate AbortsTold(notes: seq<Note>, controller: Controller) {
    && (AbortAt(notes) < |notes| <==> controller.Controller? && controller.aborted)
    && (controller.NoController? ==> notes == [])
  }

  ghost predicate Stands(pc: Pc, notes: seq<Note>, terminal: Option<EventType>, controller: Controller) {
    match pc
    case AtMessage => Verdict(notes) == Some(RunSucceeded) && terminal.None? && controller.Controller?
    case AtArtifact => Verdict(notes) == Some(RunSucceeded) && terminal.None? && controller.Controller?
    case AtUsage => Verdict(notes) == Some(RunSucceeded) && terminal.None? && controller.Controller?
    case AtTerminal => terminal.Some? && Verdict(notes) == terminal
    case Finished => terminal.Some? && Verdict(notes) == terminal
    case Abandoned => terminal.Some? ==> Verdict(notes) == terminal
    case Created => Verdict(notes).None? && terminal.None?
    case Threw => Verdict(notes).None? && terminal.None?
    case _ => Verdict(notes).None? && terminal.None? && controller.Controller?
  }

  ghost predicate Inv(s: State) {
    && Streams(s.pc, s.emitter, s.terminal)
    && AbortsTold(s.notes, s.controller)
    && Stands(s.pc, s.notes, s.terminal, s.controller)
  }

  // ----- Every step keeps it -----

  lemma YieldKeeps(s: State, id: nat, kind: EventType, next: Pc)
    requires Streams(s.pc, s.emitter, s.terminal) && Unused(s.emitter, id)
    requires Shape(next, Kinds(s.emitter) + [kind], s.terminal)
    requires AbortsTold(s.notes, s.controller) && Stands(next, s.notes, s.terminal, s.controller)
    ensures Inv(Yield(s, id, kind, next))
  {
    EmitNumbers(s.emitter, id, kind);
    hide Shape;
    hide Numbered;
    hide Kinds;
    hide Emit;
    hide AbortsTold;
    hide Stands;
  }

  lemma EndKeeps(s: State, id: nat, kind: EventType)
    requires Numbered(s.emitter) && Open(Kinds(s.emitter)) && Unused(s.emitter, id) && TerminalType(kind)
    requires AbortsTold(s.notes, s.controller) && Verdict(s.notes) == Some(kind)
    ensures Inv(YieldTerminal(s, id, kind))
  {
    EmitNumbers(s.emitter, id, kind);
    EndsOnceAppend(Kinds(s.emitter), kind);
    hide Numbered;
    hide Kinds;
    hide Emit;
    hide EndsOnce;
    hide AbortsTold;
    hide Verdict;
  }

  lemma PullKeeps(s: State, id: nat, prompted: bool)
    requires Inv(s) && Unused(s.emitter, id)
    ensures Inv(OnPull(s, id, prompted))
  {
    match s.pc {
      case Created =>
        if !(s.closed || s.controller.Controller? || !prompted) {
          YieldKeeps(s.(controller := Controller(false), timer := true), id, RunStarted, AtStarted);
        }
      case AtMessage => YieldKeeps(s.(artifacts := s.artifacts + 1), id, ArtifactCreated, AtArtifact);
      case AtArtifact => YieldKeeps(s, id, UsageUpdated, AtUsage);
      case AtUsage => EndKeeps(s, id, RunSucceeded);
      case _ =>
    }
    hide Numbered;
    hide Kinds;
    hide Yield;
    hide YieldTerminal;
    hide Verdict;
  }

  lemma CatchKeeps(s: State, id: nat)
    requires Inv(s) && Unused(s.emitter, id) && (s.pc.AwaitFetch? || s.pc.AwaitErrorText? || s.pc.AwaitJson?)
    ensures Inv(Catch(s, id))
  {
    VerdictAppended(s.notes, Settled(false));
    EndKeeps(Noted(s, Settled(false)), id, if IsAborted(s) then RunCancelled else RunFailed);
    hide Numbered;
    hide Kinds;
    hide YieldTerminal;
    hide Verdict;
  }

  lemma FetchKeeps(s: State, id: nat, fetched: Fetched)
    requires Inv(s) && Unused(s.emitter, id)
    ensures Inv(OnFetch(s, id, fetched)) && Inv(OnErrorText(s, id))
  {
    if s.pc.AwaitFetch? || s.pc.AwaitErrorText? {
      CatchKeeps(s, id);
    }
    hide Streams;
    hide AbortsTold;
    hide Catch;
    hide Verdict;
    assert Streams(s.pc, s.emitter, s.terminal) && s.pc.AwaitFetch? ==>
      Streams(AwaitErrorText, s.emitter, s.terminal) && Streams(AwaitJson, s.emitter, s.terminal) by {
      StreamsMove(s);
    }
  }

  lemma StreamsMove(s: State)
    requires Streams(s.pc, s.emitter, s.terminal)
    ensures s.pc.AwaitFetch? ==>
      Streams(AwaitErrorText, s.emitter, s.terminal) && Streams(AwaitJson, s.emitter, s.terminal)
  {
    hide Numbered;
    hide Kinds;
  }

  lemma JsonKeeps(s: State, id: nat, body: Body)
    requires Inv(s) && Unused(s.emitter, id)
    ensures Inv(OnJson(s, id, body))
  {
    if s.pc.AwaitJson? {
      if body.Output? {
        VerdictAppended(s.notes, Settled(true));
        assert Shape(AtMessage, Kinds(s.emitter) + [MessageCompleted], s.terminal);
        hide Shape;
        YieldKeeps(Noted(s, Settled(true)), id, MessageCompleted, AtMessage);
      } else {
        CatchKeeps(s, id);
      }
    }
    hide Inv;
    hide Kinds;
    hide Numbered;
    hide Yield;
    hide Catch;
    hide Verdict;
  }

  lemma AbortKeeps(s: State, source: Source)
    requires Inv(s)
    ensures Inv(Abort(s, source))
  {
    VerdictAppended(s.notes, Aborted(source));
    hide Numbered;
    hide Kinds;
    hide Verdict;
    hide Shape;
  }

  lemma FlagsKeep(s: State, timer: bool, closed: bool)
    requires Inv(s)
    ensures Inv(s.(timer := timer, closed := closed))
  {
    hide Streams;
    hide Stands;
    hide AbortsTold;
  }

  lemma ReturnKeeps(s: State)
    requires Inv(s)
    ensures Inv(OnReturn(s))
  {
    hide Numbered;
    hide Kinds;
    hide Verdict;
    hide AbortsTold;
  }

  lemma NextKeeps(s: State, a: Action)
    requires Inv(s)
    ensures Inv(Next(s, a))
  {
    hide Inv;
    match a {
      case Pull(id, prompted) => if Unused(s.emitter, id) { PullKeeps(s, id, prompted); }
      case ConsumerReturns => ReturnKeeps(s);
      case FetchResumes(id, fetched) => if Unused(s.emitter, id) { FetchKeeps(s, id, fetched); }
      case ErrorTextResumes(id) => if Unused(s.emitter, id) { FetchKeeps(s, id, Rejects); }
      case JsonResumes(id, body) => if Unused(s.emitter, id) { JsonKeeps(s, id, body); }
      case TimerFires =>
        AbortKeeps(s, ByTimer);
        FlagsKeep(Abort(s, ByTimer), false, Abort(s, ByTimer).closed);
      case Cancel => AbortKeeps(s, ByCancel);
      case CloseSession =>
        AbortKeeps(s, ByClose);
        FlagsKeep(s, s.timer, true);
        FlagsKeep(Abort(s, ByClose), Abort(s, ByClose).timer, true);
    }
    hide OnPull;
    hide OnFetch;
    hide OnErrorText;
    hide OnJson;
    hide OnReturn;
    hide Abort;
    hide Unused;
  }

  lemma {:induction false} ExecKeeps(s: State, actions: seq<Action>)
    requires Inv(s)
    ensures Inv(Exec(s, actions))
    decreases |actions|
  {
    hide Inv;
    hide Next;
    if actions != [] {
      NextKeeps(s, actions[0]);
      ExecKeeps(Next(s, actions[0]), actions[1..]);
    }
  }

  lemma Reachable(binding: Binding, actions: seq<Action>)
    ensures Inv(Exec(Init(binding), actions))
  {
    var s := Init(binding);
    assert Kinds(s.emitter) == [];
    assert Inv(s);
    hide Inv;
    ExecKeeps(s, actions);
  }

  // ----- The theorems -----

  // A fully consumed stream ends in its one terminal event, state.terminal is its type, and the
  // type is the reference outcome.  A run is never timed out: its own timer reads as a cancel.
  lemma RunOutcome(binding: Binding, actions: seq<Action>)
    requires Exec(Init(binding), actions).pc.Finished?
    ensures var s := Exec(Init(binding), actions);
      && EndsOnce(Kinds(s.emitter))
      && Verdict(s.notes) == Some(Kinds(s.emitter)[|Kinds(s.emitter)| - 1]) == s.terminal
      && s.terminal != Some(RunTimedOut)
  {
    Reachable(binding, actions);
  }

  // The HTTP client gives no output once its signal was aborted.
  predicate Obeys(notes: seq<Note>) {
    SettledAt(notes) < |notes| && notes[SettledAt(notes)].ok ==> AbortAt(notes) > SettledAt(notes)
  }

  // With a client that obeys the signal, the run is cancelled if and only if it was aborted, by
  // whomever, before the HTTP call was settled.
  lemma AbortDecides(binding: Binding, actions: seq<Action>)
    requires var s := Exec(Init(binding), actions);
      s.pc.Finished? && Obeys(s.notes)
    ensures var s := Exec(Init(binding), actions);
      && SettledAt(s.notes) < |s.notes|
      && (s.terminal == Some(RunCancelled) <==> AbortAt(s.notes) < SettledAt(s.notes))
  {
    Reachable(binding, actions);
  }

  // A cancel changes nothing exactly when the run is over or has not begun, and in the second
  // case it still answers that it cancelled.
  lemma CancelBeforeStartIsLost(binding: Binding, actions: seq<Action>)
    ensures var s := Exec(Init(binding), actions);
      && (Next(s, Cancel) == s <==> s.terminal.Some? || s.controller.NoController?)
      && (s.controller.NoController? ==> s.terminal.None? && CancelAnswers(s) == CancelAnswer(true, false, false))
  {
    Reachable(binding, actions);
    var s := Exec(Init(binding), actions);
    assert |s.notes + [Aborted(ByCancel)]| > |s.notes|;
  }

  lemma StreamPasses(binding: Binding, actions: seq<Action>)
    requires Exec(Init(binding), actions).pc.Finished?
    ensures var events := Exec(Init(binding), actions).emitter.events;
      && Monotonic(events) && |Terminals(events)| == 1 && Terminals(events)[0] == events[|events| - 1]
      && forall k :: 0 <= k < |events| ==> events[k].binding == binding
  {
    Reachable(binding, actions);
    BindingKept(Init(binding), actions);
    GoodStreamsPass(Exec(Init(binding), actions).emitter);
  }

  lemma NextBinding(s: State, a: Action)
    ensures Next(s, a).emitter.binding == s.emitter.binding
  {
    hide Unused;
  }

  lemma {:induction false} BindingKept(s: State, actions: seq<Action>)
    ensures Exec(s, actions).emitter.binding == s.emitter.binding
    decreases |actions|
  {
    hide Next;
    if actions != [] {
      NextBinding(s, actions[0]);
      BindingKept(Next(s, actions[0]), actions[1..]);
    }
  }

  function AtFirstMessage(binding: Binding): State {
    Next(Next(Next(Next(Init(binding), Pull(0, true)), Pull(1, true)), FetchResumes(1, GoodStatus)),
      JsonResumes(1, Output))
  }

  lemma MessageReached(binding: Binding)
    ensures var s := AtFirstMessage(binding);
      && s.pc.AtMessage? && s.terminal.None? && s.controller == Controller(false)
      && Below(s.emitter, 2)
  {
  }

  // A schedule that delivers the message of a successful run.
  function ToMessage(): seq<Action> {
    [Pull(0, true), Pull(1, true), FetchResumes(1, GoodStatus), JsonResumes(1, Output)]
  }

  lemma ThroughMessage(binding: Binding, rest: seq<Action>)
    ensures Exec(Init(binding), ToMessage() + rest) == Exec(AtFirstMessage(binding), rest)
  {
    hide Next;
    var s, a := Init(binding), ToMessage() + rest;
    assert a[1..][1..][1..][1..] == rest;
    assert Exec(s, a) == Exec(Next(s, a[0]), a[1..]);
    assert Exec(Next(s, a[0]), a[1..]) == Exec(Next(Next(s, a[0]), a[1]), a[1..][1..]);
    assert Exec(Next(Next(s, a[0]), a[1]), a[1..][1..]) ==
      Exec(Next(Next(Next(s, a[0]), a[1]), a[2]), a[1..][1..][1..]);
  }

  function LatePulls(): seq<Action> {
    [Pull(2, true), Pull(3, true), Pull(4, true), Pull(5, true)]
  }

  // An abort that comes after the output does not stop the run, though cancel answers confirmed.
  lemma LateCancelStillSucceeds(binding: Binding)
    ensures CancelAnswers(AtFirstMessage(binding)) == CancelAnswer(true, true, false)
    ensures exists actions :: var s := Exec(Init(binding), actions);
      s.pc.Finished? && s.terminal == Some(RunSucceeded) && s.controller == Controller(true)
  {
    var rest := [Cancel] + LatePulls();
    var s := AtFirstMessage(binding);
    MessageReached(binding);
    ThroughMessage(binding, rest);
    hide AtFirstMessage;
    assert rest[1..] == LatePulls();
    ResultPulls(Next(s, Cancel), LatePulls());
    assert Exec(s, rest) == Exec(Next(s, Cancel), rest[1..]);
  }

  // A cancel that comes before the run has begun is answered as cancelled, and the run succeeds.
  lemma EarlyCancelStillSucceeds(binding: Binding)
    ensures CancelAnswers(Init(binding)) == CancelAnswer(true, false, false)
    ensures exists actions :: var s := Exec(Init(binding), [Cancel] + actions);
      s.pc.Finished? && s.terminal == Some(RunSucceeded) && s.controller == Controller(false)
  {
    var actions := ToMessage() + LatePulls();
    MessageReached(binding);
    ThroughMessage(binding, LatePulls());
    hide AtFirstMessage;
    ResultPulls(AtFirstMessage(binding), LatePulls());
    assert ([Cancel] + actions)[1..] == actions && Next(Init(binding), Cancel) == Init(binding);
    assert Exec(Init(binding), [Cancel] + actions) == Exec(Init(binding), actions);
  }

  lemma ResultPulls(s: State, a: seq<Action>)
    requires s.pc.AtMessage? && Below(s.emitter, 2)
    requires a == LatePulls()
    ensures var t := Exec(s, a); t.pc.Finished? && t.terminal == Some(RunSucceeded) && t.controller == s.controller
  {
    hide Below;
    hide Unused;
    hide Emit;
    BelowEmit(s.emitter, 2, ArtifactCreated);
    BelowEmit(Emit(s.emitter, 2, ArtifactCreated), 3, UsageUpdated);
    BelowEmit(Emit(Emit(s.emitter, 2, ArtifactCreated), 3, UsageUpdated), 4, RunSucceeded);
    BelowEmit(Emit(Emit(Emit(s.emitter, 2, ArtifactCreated), 3, UsageUpdated), 4, RunSucceeded), 5, RunSucceeded);
    var s1 := Next(s, a[0]);
    var s2 := Next(s1, a[1]);
    var s3 := Next(s2, a[2]);
    var s4 := Next(s3, a[3]);
    assert s1.pc.AtArtifact? && s2.pc.AtUsage? && s3.pc.AtTerminal? && s4.pc.Finished?;
    assert Exec(s, a) == Exec(s1, a[1..]);
    assert Exec(s1, a[1..]) == Exec(s2, a[1..][1..]);
    assert Exec(s2, a[1..][1..]) == Exec(s3, a[1..][1..][1..]);
    assert Exec(s3, a[1..][1..][1..]) == Exec(s4, a[1..][1..][1..][1..]);
    assert a[1..][1..][1..][1..] == [];
  }
}
