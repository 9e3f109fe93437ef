// One session of the local-model adapter: a generator around one HTTP call, aborted by cancel,
// by close, or by its own timer, in every order.
module LocalModel {
  import opened Wrappers
  import opened Events

  // The answer of fetch, and of reading the body of a good response.
  datatype Fetched = Rejects | BadStatus | GoodStatus
  datatype Body = Unreadable | Empty | Output

  datatype Pc =
    | Created                      // startRun called, body not begun
    | AtStarted
    | AwaitFetch
    | AwaitErrorText               // reading the body of a bad status
    | AwaitJson
    | AtMessage
    | AtArtifact
    | AtUsage
    | AtTerminal                   // yielded its terminal event
    | Finished
    | Threw
    | Abandoned

  datatype Controller = NoController | Controller(aborted: bool)

  datatype Source = ByCancel | ByTimer | ByClose

  // Who aborted, and where the HTTP call was settled: with an output, or by a throw.
  datatype Note = Aborted(source: Source) | Settled(ok: bool)

  datatype State = State(
    emitter: Emitter, controller: Controller, timer: bool, terminal: Option<EventType>, closed: bool,
    artifacts: nat, pc: Pc, notes: seq<Note>)

  datatype CancelAnswer = CancelAnswer(cancelled: bool, confirmed: bool, alreadyTerminal: bool)

  datatype Action =
    | Pull(id: nat, prompted: bool)    // prompted: the request carries a prompt text
    | ConsumerReturns
    | FetchResumes(id: nat, fetched: Fetched)
    | ErrorTextResumes(id: nat)
    | JsonResumes(id: nat, body: Body)
    | TimerFires
    | Cancel
    | CloseSession

  function Init(binding: Binding): State {
    State(NewEmitter(binding), NoController, false, None, false, 0, Created, [])
  }

  function Yield(s: State, id: nat, kind: EventType, pc: Pc): State {
    s.(emitter := Emit(s.emitter, id, kind), pc := pc)
  }

  // state.terminal is set just before the terminal event is yielded.
  function YieldTerminal(s: State, id: nat, kind: EventType): State {
    Yield(s.(terminal := Some(kind)), id, kind, AtTerminal)
  }

  function Noted(s: State, note: Note): State {
    s.(notes := s.notes + [note])
  }

  predicate IsAborted(s: State) {
    s.controller.Controller? && s.controller.aborted
  }

  // ----- startRun (ollama-local 122-205) -----

  // 124-145: the controller and the timer exist before run.started is yielded.
  function Begin(s: State, id: nat, prompted: bool): State {
    if s.closed || s.controller.Controller? || !prompted then s.(pc := Threw)
    else Yield(s.(controller := Controller(false), timer := true), id, RunStarted, AtStarted)
  }

  function OnPull(s: State, id: nat, prompted: bool): State {
    match s.pc
    case Created => Begin(s, id, prompted)
    case AtStarted => s.(pc := AwaitFetch)
    case AtMessage => Yield(s.(artifacts := s.artifacts + 1), id, ArtifactCreated, AtArtifact)
    case AtArtifact => Yield(s, id, UsageUpdated, AtUsage)
    case AtUsage => YieldTerminal(s, id, RunSucceeded)
    case AtTerminal => s.(timer := false, pc := Finished)
    case _ => s
  }

  predicate AtYield(pc: Pc) {
    pc.Created? || pc.AtStarted? || pc.AtMessage? || pc.AtArtifact? || pc.AtUsage? || pc.AtTerminal?
  }

  // Leaving the try block runs its finally; the yield of run.started stands before the block.
  function OnReturn(s: State): State {
    if !AtYield(s.pc) then s
    else if s.pc.Created? || s.pc.AtStarted? then s.(pc := Abandoned)
    else s.(timer := false, pc := Abandoned)
  }

  // 191-201: whatever threw, an aborted signal makes it a cancellation.
  function Catch(s: State, id: nat): State {
    YieldTerminal(Noted(s, Settled(false)), id, if IsAborted(s) then RunCancelled else RunFailed)
  }

  function OnFetch(s: State, id: nat, fetched: Fetched): State {
    if !s.pc.AwaitFetch? then s else
      match fetched
      case Rejects => Catch(s, id)
      case BadStatus => s.(pc := AwaitErrorText)
      case GoodStatus => s.(pc := AwaitJson)
  }

  function OnErrorText(s: State, id: nat): State {
    if s.pc.AwaitErrorText? then Catch(s, id) else s
  }

  function OnJson(s: State, id: nat, body: Body): State {
    if !s.pc.AwaitJson? then s
    else if body.Output? then Yield(Noted(s, Settled(true)), id, MessageCompleted, AtMessage)
    else Catch(s, id)
  }

  // ----- Aborts (139, 207-213, 232-237) -----

  function Abort(s: State, source: Source): State {
    if s.controller.NoController? then s else Noted(s, Aborted(source)).(controller := Controller(true))
  }

  function OnTimer(s: State): State {
    if s.timer then Abort(s, ByTimer).(timer := false) else s
  }

  function OnCancel(s: State): State {
    if s.terminal.Some? then s else Abort(s, ByCancel)
  }

  function CancelAnswers(s: State): CancelAnswer {
    if s.terminal.Some? then CancelAnswer(false, true, true)
    else CancelAnswer(true, s.controller.Controller?, false)
  }

  function OnClose(s: State): State {
    (if s.terminal.Some? then s else Abort(s, ByClose)).(closed := true)
  }

  function Next(s: State, a: Action): State {
    match a
    case Pull(id, prompted) => if Unused(s.emitter, id) then OnPull(s, id, prompted) else s
    case ConsumerReturns => OnReturn(s)
    case FetchResumes(id, fetched) => if Unused(s.emitter, id) then OnFetch(s, id, fetched) else s
    case ErrorTextResumes(id) => if Unused(s.emitter, id) then OnErrorText(s, id) else s
    case JsonResumes(id, body) => if Unused(s.emitter, id) then OnJson(s, id, body) else s
    case TimerFires => OnTimer(s)
    case Cancel => OnCancel(s)
    case CloseSession => OnClose(s)
  }

  function Exec(s: State, actions: seq<Action>): State
    decreases |actions|
  {
    if actions == [] then s else Exec(Next(s, actions[0]), actions[1..])
  }

  lemma {:induction false} ExecThen(s: State, actions: seq<Action>, a: Action)
    ensures Exec(s, actions + [a]) == Next(Exec(s, actions), a)
    decreases |actions|
  {
    hide Next;
    if actions == [] {
      assert (actions + [a])[1..] == [];
    } else {
      assert (actions + [a])[1..] == actions[1..] + [a];
      ExecThen(Next(s, actions[0]), actions[1..], a);
    }
  }
}
