// The session record of the one-shot process adapter, updated in place by the generator, the
// callbacks of its child, and the cancel and close calls.
//
// View() projects the record and its suspended frames to the step system; each method is the code
// between two suspensions and moves the view by exactly one step.
module ProcessSession {
  import opened Wrappers
  import opened Events
  import opened ChildProcess
  import opened ProcessModel
  import ProcessTheorems

  class OneShotSession {
    const cap: nat
    const emit: EventFactory
    var child: RunChild?
    var spawnRejected: bool
    var terminal: Option<EventType>
    var cancelRequested: bool
    var closed: bool
    var artifacts: nat
    var pc: Pc
    var calls: seq<Call>
    ghost var history: seq<Action>
    ghost var notes: seq<Note>

    ghost predicate Coherent()
      reads this, emit, child
    {
      && emit.Valid()
      && (child != null ==> child.Valid() && child.cap == cap && !spawnRejected)
      && (pc.AtStarted? ==> child == null && !spawnRejected)
    }

    ghost function View(): State
      reads this`child, this`spawnRejected, this`terminal, this`cancelRequested, this`closed, this`artifacts,
        this`pc, this`calls, this`notes, emit, child
    {
      var exit := if child != null then Owned(child.View()) else if spawnRejected then SpawnRejected else Unset;
      State(cap, Emitter(emit.binding, emit.sequence, emit.made), exit, terminal, cancelRequested, closed,
            artifacts, pc, calls, notes)
    }

    // Between two suspensions the session is where its history leads.
    ghost predicate Valid()
      reads this, emit, child
    {
      Coherent() && View() == Exec(Init(cap, emit.binding), history)
    }

    constructor (cap: nat, binding: Binding)
      ensures Valid() && fresh(emit) && child == null
      ensures View() == Init(cap, binding)
    {
      this.cap := cap;
      emit := new EventFactory(binding);
      child, spawnRejected, terminal, cancelRequested, closed := null, false, None, false, false;
      artifacts, pc, calls, notes, history := 0, Created, [], [], [];
    }

    // Where one more step leads.
    lemma Follows(a: Action)
      requires Valid()
      ensures Coherent() && Exec(Init(cap, emit.binding), history + [a]) == Next(View(), a)
    {
      ExecThen(Init(cap, emit.binding), history, a);
    }

    // ----- startRun -----

    method Yield(id: nat, kind: EventType, next: Pc) returns (event: Event)
      requires Coherent() && Unused(View().emitter, id)
      requires next.AtStarted? ==> child == null && !spawnRejected
      modifies this`pc, emit
      ensures Coherent()
      ensures View() == ProcessModel.Yield(old(View()), id, kind, next)
      ensures View().emitter.events == old(View().emitter.events) + [event]
    {
      hide Numbered;
      event := emit.Make(id, kind);
      pc := next;
    }

    method YieldTerminal(id: nat, kind: EventType) returns (event: Event)
      requires Coherent() && Unused(View().emitter, id)
      modifies this`pc, this`terminal, emit
      ensures Coherent()
      ensures View() == ProcessModel.YieldTerminal(old(View()), id, kind)
      ensures View().emitter.events == old(View().emitter.events) + [event]
    {
      hide Unused;
      terminal := Some(kind);
      event := Yield(id, kind, AtTerminal);
    }

    method Note(note: ProcessModel.Note)
      requires Coherent()
      modifies this`notes
      ensures Coherent() && View() == Noted(old(View()), note)
    {
      notes := notes + [note];
    }

    // 145-172: up to the first yield.
    method Begin(id: nat, ok: bool) returns (event: Option<Event>)
      requires Coherent() && Unused(View().emitter, id) && pc.Created?
      modifies this`pc, emit
      ensures Coherent() && View() == OnPull(old(View()), id, ok)
      ensures View().emitter.events == old(View().emitter.events) + (if event.Some? then [event.value] else [])
    {
      hide Unused;
      hide Numbered;
      event := None;
      if closed || child != null || spawnRejected || !ok {
        pc := Threw;
      } else {
        var e := Yield(id, RunStarted, AtStarted);
        event := Some(e);
      }
    }

    // 174-184: runChild, up to its first await.
    method Spawn(ok: bool)
      requires Coherent() && pc.AtStarted?
      modifies this`pc, this`child, this`spawnRejected
      ensures Coherent() && (child == null || fresh(child))
      ensures forall id :: View() == OnPull(old(View()), id, ok)
    {
      if ok {
        child := new RunChild(cap);
        pc := AwaitExit;
      } else {
        spawnRejected := true;
        pc := Threw;
      }
    }

    // 235-244: the yields after the message.
    method YieldResult(id: nat) returns (event: Event)
      requires Coherent() && Unused(View().emitter, id) && (pc.AtMessage? || pc.AtArtifact? || pc.AtUsage?)
      modifies this`pc, this`artifacts, this`terminal, emit
      ensures Coherent() && forall ok :: View() == OnPull(old(View()), id, ok)
      ensures View().emitter.events == old(View().emitter.events) + [event]
    {
      hide Unused;
      hide Numbered;
      match pc {
        case AtMessage(usage) =>
          artifacts := artifacts + 1;
          event := Yield(id, ArtifactCreated, AtArtifact(usage));
        case AtArtifact(usage) =>
          if usage {
            event := Yield(id, UsageUpdated, AtUsage);
          } else {
            event := YieldTerminal(id, RunSucceeded);
          }
        case AtUsage => event := YieldTerminal(id, RunSucceeded);
      }
    }

    // The generator from one suspension to the next.
    method Continue(id: nat, ok: bool) returns (event: Option<Event>)
      requires Coherent() && Unused(View().emitter, id)
      modifies this`pc, this`child, this`spawnRejected, this`artifacts, this`terminal, emit
      ensures Coherent() && (child == old(child) || fresh(child))
      ensures View() == OnPull(old(View()), id, ok)
      ensures View().emitter.events == old(View().emitter.events) + (if event.Some? then [event.value] else [])
    {
      hide Unused;
      hide Numbered;
      event := None;
      var e: Event;
      match pc {
        case Created => event := Begin(id, ok);
        case AtStarted => Spawn(ok);
        case AtMessage(_) => e := YieldResult(id); event := Some(e);
        case AtArtifact(_) => e := YieldResult(id); event := Some(e);
        case AtUsage => e := YieldResult(id); event := Some(e);
        case AtTerminal => pc := Finished;
        case _ =>
      }
    }

    // The consumer pulls; `ok` says whether buildInvocation, or spawn, returned without throwing.
    method Pull(id: nat, ok: bool) returns (event: Option<Event>)
      requires Valid() && Unused(View().emitter, id)
      modifies this, emit
      ensures Valid() && history == old(history) + [Action.Pull(id, ok)] && (child == old(child) || fresh(child))
      ensures View() == Next(old(View()), Action.Pull(id, ok))
      ensures View().emitter.events == old(View().emitter.events) + (if event.Some? then [event.value] else [])
    {
      Follows(Action.Pull(id, ok));
      hide Exec;
      hide Unused;
      hide Numbered;
      hide OnPull;
      event := Continue(id, ok);
      history := history + [Action.Pull(id, ok)];
    }

    method ConsumerReturn()
      requires Valid()
      modifies this`history, this`pc
      ensures Valid() && history == old(history) + [ConsumerReturns] && View() == Next(old(View()), ConsumerReturns)
    {
      Follows(ConsumerReturns);
      history := history + [ConsumerReturns];
      hide Exec;
      if AtYield(pc) {
        pc := Abandoned;
      }
    }

    // The flags are tested in the order of the source.
    method AfterExit(id: nat) returns (event: Option<Event>)
      requires Coherent() && Unused(View().emitter, id) && pc.AwaitExit? && child != null && child.resolved.Some?
      modifies this`pc, this`terminal, this`notes, emit
      ensures Coherent() && View() == OnExit(old(View()), id)
      ensures View().emitter.events == old(View().emitter.events) + (if event.Some? then [event.value] else [])
    {
      hide Unused;
      hide Numbered;
      hide ProcessModel.YieldTerminal;
      var outcome := child.resolved.value;
      event := None;
      Note(Observed);
      if cancelRequested {
        var e := YieldTerminal(id, RunCancelled);
        event := Some(e);
      } else if outcome.timedOut {
        var e := YieldTerminal(id, RunTimedOut);
        event := Some(e);
      } else if outcome.outputExceeded || outcome.spawnError {
        var e := YieldTerminal(id, RunFailed);
        event := Some(e);
      } else {
        pc := AwaitParse;
      }
    }

    // exitPromise settled.
    method ResumeExit(id: nat) returns (event: Option<Event>)
      requires Valid() && Unused(View().emitter, id)
      modifies this, emit
      ensures Valid() && history == old(history) + [ExitResumes(id)] && child == old(child)
      ensures View() == Next(old(View()), ExitResumes(id))
      ensures View().emitter.events == old(View().emitter.events) + (if event.Some? then [event.value] else [])
    {
      Follows(ExitResumes(id));
      hide Exec;
      hide Unused;
      hide Numbered;
      hide ProcessModel.YieldTerminal;
      event := None;
      if pc.AwaitExit? && child != null && child.resolved.Some? {
        event := AfterExit(id);
      }
      history := history + [ExitResumes(id)];
    }

    // 209-234
    method AfterParse(id: nat, parse: Parse, code: Option<int>) returns (event: Option<Event>)
      requires Coherent() && Unused(View().emitter, id) && pc.AwaitParse?
      requires child != null && child.resolved.Some? && child.resolved.value.code == code
      modifies this`pc, this`terminal, this`notes, emit
      ensures Coherent() && View() == OnParse(old(View()), id, parse)
      ensures View().emitter.events == old(View().emitter.events) + (if event.Some? then [event.value] else [])
    {
      hide Unused;
      hide Numbered;
      event := None;
      Note(ParseSeen(parse));
      match parse {
        case ParseThrows =>
          var e := YieldTerminal(id, RunFailed);
          event := Some(e);
        case Nothing =>
          if code != Some(0) {
            terminal := Some(RunFailed);
          }
          pc := Threw;
        case Parsed(success, usage) =>
          if code != Some(0) || !success {
            var e := YieldTerminal(id, RunFailed);
            event := Some(e);
          } else {
            var e := Yield(id, MessageCompleted, AtMessage(usage));
            event := Some(e);
          }
      }
    }

    // parseOutput answered.
    method ResumeParse(id: nat, parse: Parse) returns (event: Option<Event>)
      requires Valid() && Unused(View().emitter, id)
      modifies this, emit
      ensures Valid() && history == old(history) + [ParseResumes(id, parse)] && child == old(child)
      ensures View() == Next(old(View()), ParseResumes(id, parse))
      ensures View().emitter.events == old(View().emitter.events) + (if event.Some? then [event.value] else [])
    {
      Follows(ParseResumes(id, parse));
      history := history + [ParseResumes(id, parse)];
      hide Exec;
      hide Unused;
      hide Numbered;
      hide ProcessModel.YieldTerminal;
      hide ProcessModel.Yield;
      event := None;
      if pc.AwaitParse? && child != null && child.resolved.Some? {
        event := AfterParse(id, parse, child.resolved.value.code);
      }
    }

    // ----- The child -----

    method ChunkArrived(chunk: Chunk)
      requires Valid()
      modifies this`history, this`notes, child
      ensures Valid() && history == old(history) + [ChunkArrives(chunk)]
        && View() == Next(old(View()), ChunkArrives(chunk))
    {
      Follows(ChunkArrives(chunk));
      history := history + [ChunkArrives(chunk)];
      hide Exec;
      if child != null && child.resolved.None? {
        child.OnData(chunk);
        Note(Arrived(chunk));
      }
    }

    method TimerFired()
      requires Valid()
      modifies this`history, this`notes, child
      ensures Valid() && history == old(history) + [TimerFires] && View() == Next(old(View()), TimerFires)
    {
      Follows(TimerFires);
      history := history + [TimerFires];
      hide Exec;
      if child != null && child.resolved.None? {
        child.OnTimeout();
        Note(ProcessModel.TimerFired);
      }
    }

    method ErrorEmitted()
      requires Valid()
      modifies this`history, this`notes, child
      ensures Valid() && history == old(history) + [Action.ErrorEmitted]
        && View() == Next(old(View()), Action.ErrorEmitted)
    {
      Follows(Action.ErrorEmitted);
      history := history + [Action.ErrorEmitted];
      hide Exec;
      if child != null && child.resolved.None? {
        child.OnError();
        Note(ErrorSeen);
      }
    }

    method ChildClosed(code: Option<int>)
      requires Valid()
      modifies this`history, this`notes, child
      ensures Valid() && history == old(history) + [CloseEmitted(code)]
        && View() == Next(old(View()), CloseEmitted(code))
    {
      Follows(CloseEmitted(code));
      history := history + [CloseEmitted(code)];
      hide Exec;
      if child != null && child.resolved.None? {
        child.OnClose(code);
        Note(Exited(code));
      }
    }

    // ----- cancel and close -----

    method BeginCancel(byClose: bool)
      requires Coherent()
      modifies this`cancelRequested, this`calls, this`notes
      ensures Coherent() && View() == StartCancel(old(View()), byClose)
    {
      if terminal.Some? {
        calls := calls + [Call(Answered(CancelResult(false, true, true)), byClose)];
        return;
      }
      cancelRequested := true;
      Note(CancelAccepted);
      if child == null {
        calls := calls + [Call(Answered(CancelResult(true, false, false)), byClose)];
      } else {
        calls := calls + [Call(Killing, byClose)];
      }
    }

    method Cancel()
      requires Valid()
      modifies this`history, this`cancelRequested, this`calls, this`notes
      ensures Valid() && history == old(history) + [Action.Cancel] && View() == Next(old(View()), Action.Cancel)
    {
      Follows(Action.Cancel);
      history := history + [Action.Cancel];
      hide Exec;
      BeginCancel(false);
    }

    method Close()
      requires Valid()
      modifies this`history, this`cancelRequested, this`closed, this`calls, this`notes
      ensures Valid() && history == old(history) + [CloseSession] && View() == Next(old(View()), CloseSession)
    {
      Follows(CloseSession);
      history := history + [CloseSession];
      hide Exec;
      if terminal.None? && (child != null || spawnRejected) {
        BeginCancel(true);
      } else {
        closed := true;
      }
    }

    // The call's await settled: the kill returned, the child closed, or the inner cancel answered.
    method ResumeCall(c: nat)
      requires Valid()
      modifies this`history, this`calls, this`closed
      ensures Valid() && history == old(history) + [CallResumes(c)] && View() == Next(old(View()), CallResumes(c))
    {
      Follows(CallResumes(c));
      hide Exec;
      hide OnCall;
      AnswerCall(c);
      history := history + [CallResumes(c)];
    }

    method AnswerCall(c: nat)
      requires Coherent()
      modifies this`calls, this`closed
      ensures Coherent() && View() == OnCall(old(View()), c)
    {
      if c >= |calls| {
        return;
      }
      var call := calls[c];
      match call.stage {
        case Killing => calls := calls[c := call.(stage := AwaitingExit)];
        case AwaitingExit =>
          if child != null && child.resolved.Some? {
            calls := calls[c := call.(stage := Answered(CancelResult(true, child.resolved.value.closed, false)))];
          }
        case Answered(_) =>
          if call.byClose {
            calls := calls[c := call.(stage := Returned)];
            closed := true;
          }
        case Returned =>
      }
    }

    // ----- What holds of every session -----

    // A consumed run ended in its one terminal event, which follows from what had happened at its
    // one exit and at the one moment that was observed.
    lemma RunOutcome() returns (exit: nat, observed: nat)
      requires Valid() && pc.Finished?
      ensures exit < observed < |notes| && notes[exit].Exited? && notes[observed] == Observed
      ensures EndsOnce(Kinds(View().emitter)) && terminal == Some(Kinds(View().emitter)[|Kinds(View().emitter)| - 1])
      ensures terminal == Some(ProcessTheorems.Expected(notes, exit, observed, cap))
    {
      exit, observed := ProcessTheorems.RunOutcome(cap, emit.binding, history);
    }

    // Whatever cancel or close was answered as confirmed, the child has emitted close.
    lemma HonestCancellation(c: nat)
      requires Valid() && c < |calls| && calls[c].stage.Answered? && calls[c].stage.result.confirmed
      ensures child != null && child.resolved.Some?
    {
      ProcessTheorems.HonestCancellation(cap, emit.binding, history, c);
    }
  }
}
