// One session of the one-shot process adapter: the run generator, the child it owns, and any
// number of cancel and close calls, in every order.
module ProcessModel {
  import opened Wrappers
  import opened Events
  import opened ChildProcess

  // What parseOutput answers.  Nothing: it returned no object.
  datatype Parse = ParseThrows | Nothing | Parsed(success: bool, usage: bool)

  // Where the generator is suspended.
  datatype Pc =
    | Created                      // startRun called, body not begun
    | AtStarted                    // yielded run.started
    | AwaitExit                    // awaiting exitPromise
    | AwaitParse                   // awaiting parseOutput
    | AtMessage(usage: bool)
    | AtArtifact(usage: bool)
    | AtUsage
    | AtTerminal                   // yielded its terminal event
    | Finished
    | Threw
    | Abandoned                    // the consumer called return()

  // exitPromise: unset, the promise of a running child, or rejected because spawn threw.
  datatype Exit = Unset | Owned(child: Child) | SpawnRejected

  datatype CancelResult = CancelResult(cancelled: bool, confirmed: bool, alreadyTerminal: bool)

  // The frame of one cancel call, or of the cancel inside one close call.
  datatype Stage = Killing | AwaitingExit | Answered(result: CancelResult) | Returned

  datatype Call = Call(stage: Stage, byClose: bool)

  // What happened to the session, in order.
  datatype Note =
    | Arrived(chunk: Chunk) | TimerFired | ErrorSeen | Exited(code: Option<int>)
    | CancelAccepted | Observed | ParseSeen(parse: Parse)

  datatype State = State(
    cap: nat, emitter: Emitter, exit: Exit, terminal: Option<EventType>, cancelRequested: bool, closed: bool,
    artifacts: nat, pc: Pc, calls: seq<Call>, notes: seq<Note>)

  datatype Action =
    | Pull(id: nat, ok: bool)          // next() by the consumer; ok: buildInvocation or spawn did not throw
    | ConsumerReturns
    | ChunkArrives(chunk: Chunk)
    | TimerFires
    | ErrorEmitted
    | CloseEmitted(code: Option<int>)
    | ExitResumes(id: nat)
    | ParseResumes(id: nat, parse: Parse)
    | Cancel
    | CloseSession
    | CallResumes(c: nat)

  function Init(cap: nat, binding: Binding): State {
    State(cap, NewEmitter(binding), Unset, None, false, false, 0, Created, [], [])
  }

  predicate ChildClosed(s: State) {
    s.exit.Owned? && s.exit.child.outcome.Some?
  }

  function Yield(s: State, id: nat, kind: EventType, pc: Pc): State {
    s.(emitter := Emit(s.emitter, id, kind), pc := pc)
  }

  // state.terminal is set just before the terminal event is yielded.
  function YieldTerminal(s: State, id: nat, kind: EventType): State {
    Yield(s.(terminal := Some(kind)), id, kind, AtTerminal)
  }

  function Noted(s: State, note: Note): State {
    s.(notes := s.notes + [note])
  }

  // ----- startRun -----

  function OnPull(s: State, id: nat, ok: bool): State {
    match s.pc
    case Created =>
      if s.closed || !s.exit.Unset? || !ok then s.(pc := Threw) else Yield(s, id, RunStarted, AtStarted)
    case AtStarted =>
      if ok then s.(exit := Owned(Spawned()), pc := AwaitExit) else s.(exit := SpawnRejected, pc := Threw)
    case AtMessage(usage) => Yield(s.(artifacts := s.artifacts + 1), id, ArtifactCreated, AtArtifact(usage))
    case AtArtifact(usage) => if usage then Yield(s, id, UsageUpdated, AtUsage) else YieldTerminal(s, id, RunSucceeded)
    case AtUsage => YieldTerminal(s, id, RunSucceeded)
    case AtTerminal => s.(pc := Finished)
    case _ => s
  }

  predicate AtYield(pc: Pc) {
    pc.Created? || pc.AtStarted? || pc.AtMessage? || pc.AtArtifact? || pc.AtUsage? || pc.AtTerminal?
  }

  // one-shot-process-adapter.mjs 184-211
  function OnExit(s: State, id: nat): State {
    if !s.pc.AwaitExit? || !ChildClosed(s) then s else
      var outcome := s.exit.child.outcome.value;
      var t := Noted(s, Observed);
      if s.cancelRequested then YieldTerminal(t, id, RunCancelled)
      else if outcome.timedOut then YieldTerminal(t, id, RunTimedOut)
      else if outcome.outputExceeded then YieldTerminal(t, id, RunFailed)
      else if outcome.spawnError then YieldTerminal(t, id, RunFailed)
      else t.(pc := AwaitParse)
  }

  // 209-234.  Without an object from parseOutput the branch tests themselves throw, the second
  // one after state.terminal was set.
  function OnParse(s: State, id: nat, parse: Parse): State {
    if !s.pc.AwaitParse? || !ChildClosed(s) then s else
      var outcome := s.exit.child.outcome.value;
      var t := Noted(s, ParseSeen(parse));
      match parse
      case ParseThrows => YieldTerminal(t, id, RunFailed)
      case Nothing =>
        if outcome.code != Some(0) then t.(terminal := Some(RunFailed), pc := Threw) else t.(pc := Threw)
      case Parsed(success, usage) =>
        if outcome.code != Some(0) || !success then YieldTerminal(t, id, RunFailed)
        else Yield(t, id, MessageCompleted, AtMessage(usage))
  }

  // ----- The child -----

  function OnChild(s: State, child: Child, note: Note): State {
    Noted(s.(exit := Owned(child)), note)
  }

  function OnChunk(s: State, chunk: Chunk): State {
    if s.exit.Owned? && s.exit.child.outcome.None?
    then OnChild(s, Collect(s.exit.child, chunk, s.cap), Arrived(chunk)) else s
  }

  // The timer is cleared when the child closes.
  function OnTimer(s: State): State {
    if s.exit.Owned? && s.exit.child.outcome.None? then OnChild(s, s.exit.child.(timedOut := true), TimerFired) else s
  }

  function OnError(s: State): State {
    if s.exit.Owned? && s.exit.child.outcome.None? then OnChild(s, s.exit.child.(spawnError := true), ErrorSeen) else s
  }

  function OnClose(s: State, code: Option<int>): State {
    if s.exit.Owned? && s.exit.child.outcome.None? then OnChild(s, Close(s.exit.child, code), Exited(code)) else s
  }

  // ----- cancel and close -----

  // 247-252; `byClose` marks the call made inside close.
  function StartCancel(s: State, byClose: bool): State {
    if s.terminal.Some? then s.(calls := s.calls + [Call(Answered(CancelResult(false, true, true)), byClose)])
    else
      var t := Noted(s.(cancelRequested := true), CancelAccepted);
      if !s.exit.Owned? then t.(calls := s.calls + [Call(Answered(CancelResult(true, false, false)), byClose)])
      else t.(calls := s.calls + [Call(Killing, byClose)])
  }

  // 274-276
  function StartClose(s: State): State {
    if s.terminal.None? && !s.exit.Unset? then StartCancel(s, true) else s.(closed := true)
  }

  // 252-254, 277
  function OnCall(s: State, c: nat): State {
    if c >= |s.calls| then s else
      var call := s.calls[c];
      match call.stage
      case Killing => s.(calls := s.calls[c := call.(stage := AwaitingExit)])
      case AwaitingExit =>
        if ChildClosed(s) then
          var result := CancelResult(true, s.exit.child.outcome.value.closed, false);
          s.(calls := s.calls[c := call.(stage := Answered(result))])
        else s
      case Answered(_) =>
        if call.byClose then s.(calls := s.calls[c := call.(stage := Returned)], closed := true) else s
      case Returned => s
  }

  function Next(s: State, a: Action): State {
    match a
    case Pull(id, ok) => if Unused(s.emitter, id) then OnPull(s, id, ok) else s
    case ConsumerReturns => if AtYield(s.pc) then s.(pc := Abandoned) else s
    case ChunkArrives(chunk) => OnChunk(s, chunk)
    case TimerFires => OnTimer(s)
    case ErrorEmitted => OnError(s)
    case CloseEmitted(code) => OnClose(s, code)
    case ExitResumes(id) => if Unused(s.emitter, id) then OnExit(s, id) else s
    case ParseResumes(id, parse) => if Unused(s.emitter, id) then OnParse(s, id, parse) else s
    case Cancel => StartCancel(s, false)
    case CloseSession => StartClose(s)
    case CallResumes(c) => OnCall(s, c)
  }

  function Exec(s: State, actions: seq<Action>): State
    decreases |actions|
  {
    if actions == [] then s else Exec(Next(s, actions[0]), actions[1..])
  }

  lemma {:induction false} ExecThen(s: State, actions: seq<Action>, a: Action)
    ensures Exec(s, actions + [a]) == Next(Exec(s, actions), a)
    decreases |actions|
  {
    hide Next;
    if actions == [] {
      assert (actions + [a])[1..] == [];
    } else {
      assert (actions + [a])[1..] == actions[1..] + [a];
      ExecThen(Next(s, actions[0]), actions[1..], a);
    }
  }
}
