// One session of the mock adapter: a generator racing approvals against cancellation, and any
// number of decideApproval, steer, cancel and close calls, in every order.
module MockModel {
  import opened Wrappers
  import opened Events

  predicate OccursAt(text: string, part: string, i: int) {
    0 <= i <= |text| - |part| && text[i..i + |part|] == part
  }

  predicate Includes(text: string, part: string) {
    exists i :: 0 <= i <= |text| && OccursAt(text, part, i)
  }

  predicate AsksApproval(text: string) {
    Includes(text, "[approval]")
  }

  predicate Holds(text: string) {
    Includes(text, "[hold]")
  }

  datatype Decision = Approve | Deny

  datatype ApprovalStatus = Undecided | Approved | Denied

  // pendingApproval; `resolved` is the value of its deferred, which only the first resolve sets.
  datatype Approval = Approval(id: nat, status: ApprovalStatus, resolved: Option<Decision>)

  // The settled side of Promise.race.
  datatype Winner = ByDecision(decision: Decision) | ByCancel

  datatype Pc =
    | NotStarted
    | Created                            // startRun called, body not begun
    | AtStarted
    | AtRequested
    | AtWaiting
    | AwaitRace(winner: Option<Winner>)
    | AtDecided(decision: Decision)
    | AtProgress
    | AwaitCancel                        // awaiting cancelDeferred
    | AtCancelRequested
    | AtMessage
    | AtArtifact
    | AtUsage
    | AtTerminal(kind: EventType)        // yielded its terminal event, not yet resumed
    | Finished
    | Abandoned

  // What the session accepted, in order, and where the generator entered the race and looked at
  // cancelRequested for the last time.
  datatype Note = Accepted(decision: Decision) | CancelAccepted | RaceEntered | Checked

  // cancelRequested and cancelDeferred are settled together, so one flag stands for both.
  datatype State = State(
    text: string, emitter: Emitter, pc: Pc, pending: Option<Approval>, cancelRequested: bool,
    terminal: Option<EventType>, closed: bool, closing: nat, artifacts: nat, steering: seq<string>, notes: seq<Note>)

  datatype Action =
    | StartRun(text: string)
    | Pull(id: nat, approvalId: nat)
    | ConsumerReturns
    | RaceResumes(id: nat)
    | HoldResumes(id: nat)
    | Decide(approvalId: nat, decision: Option<Decision>)   // None: neither approve nor deny
    | Steer(text: string)
    | Cancel
    | CloseSession
    | CloseResumes

  function Init(binding: Binding): State {
    State("", NewEmitter(binding), NotStarted, None, false, None, false, 0, 0, [], [])
  }

  function Yield(s: State, id: nat, kind: EventType, pc: Pc): State {
    s.(emitter := Emit(s.emitter, id, kind), pc := pc)
  }

  function Noted(s: State, note: Note): State {
    s.(notes := s.notes + [note])
  }

  // ----- The generator (mock 87-186) -----

  function Start(s: State, text: string): State {
    if s.closed || !s.pc.NotStarted? || text == "" then s else s.(text := text, pc := Created)
  }

  // 155-171: hold, or the last look at cancelRequested.
  function Proceed(s: State, id: nat): State {
    if Holds(s.text) then Yield(s, id, Progress, AtProgress)
    else if s.cancelRequested then Yield(Noted(s, Checked), id, CancelRequested, AtCancelRequested)
    else Yield(Noted(s, Checked), id, MessageCompleted, AtMessage)
  }

  // 106-125
  function AfterStarted(s: State, id: nat, approvalId: nat): State {
    if AsksApproval(s.text) then
      Yield(s.(pending := Some(Approval(approvalId, Undecided, None))), id, ApprovalRequested, AtRequested)
    else Proceed(s, id)
  }

  // 127: a side that is settled already wins at once, the decision first.
  function EnterRace(s: State): State {
    var winner :=
      if s.pending.Some? && s.pending.value.resolved.Some? then Some(ByDecision(s.pending.value.resolved.value))
      else if s.cancelRequested then Some(ByCancel)
      else None;
    Noted(s, RaceEntered).(pc := AwaitRace(winner))
  }

  // 145-152
  function AfterDecided(s: State, id: nat, decision: Decision): State {
    var t := if s.pending.Some?
      then s.(pending := Some(s.pending.value.(status := if decision.Approve? then Approved else Denied))) else s;
    if decision.Approve? then Proceed(t, id) else Yield(t, id, RunFailed, AtTerminal(RunFailed))
  }

  function OnPull(s: State, id: nat, approvalId: nat): State {
    match s.pc
    case Created => Yield(s, id, RunStarted, AtStarted)
    case AtStarted => AfterStarted(s, id, approvalId)
    case AtRequested => Yield(s, id, WaitingApproval, AtWaiting)
    case AtWaiting => EnterRace(s)
    case AtDecided(decision) => AfterDecided(s, id, decision)
    case AtProgress => s.(pc := AwaitCancel)
    case AtCancelRequested => Yield(s, id, RunCancelled, AtTerminal(RunCancelled))
    case AtMessage => Yield(s.(artifacts := s.artifacts + 1), id, ArtifactCreated, AtArtifact)
    case AtArtifact => Yield(s, id, UsageUpdated, AtUsage)
    case AtUsage => Yield(s, id, RunSucceeded, AtTerminal(RunSucceeded))
    case AtTerminal(kind) => s.(terminal := Some(kind), pc := Finished)
    case _ => s
  }

  predicate AtYield(pc: Pc) {
    !pc.NotStarted? && !pc.AwaitRace? && !pc.AwaitCancel? && !pc.Finished? && !pc.Abandoned?
  }

  // 132-144
  function OnRace(s: State, id: nat): State {
    match s.pc
    case AwaitRace(Some(ByCancel)) => Yield(s, id, CancelRequested, AtCancelRequested)
    case AwaitRace(Some(ByDecision(decision))) => Yield(s, id, ApprovalDecided, AtDecided(decision))
    case _ => s
  }

  // 157-158
  function OnHold(s: State, id: nat): State {
    if s.pc.AwaitCancel? && s.cancelRequested then Yield(s, id, CancelRequested, AtCancelRequested) else s
  }

  // A race that is being awaited goes to whichever side settles now.
  function Settle(pc: Pc, winner: Winner): Pc {
    if pc == AwaitRace(None) then AwaitRace(Some(winner)) else pc
  }

  // ----- The commands (188-225, 240-245) -----

  predicate Deciding(s: State, approvalId: nat, decision: Option<Decision>) {
    s.pending.Some? && s.pending.value.id == approvalId && s.pending.value.status.Undecided? && decision.Some?
  }

  function OnDecide(s: State, approvalId: nat, decision: Option<Decision>): State {
    if !Deciding(s, approvalId, decision) then s else
      var t := Noted(s, Accepted(decision.value));
      if s.pending.value.resolved.Some? then t
      else t.(pending := Some(s.pending.value.(resolved := decision)), pc := Settle(s.pc, ByDecision(decision.value)))
  }

  function OnSteer(s: State, text: string): State {
    if s.terminal.Some? || text == "" then s else s.(steering := s.steering + [text])
  }

  function OnCancel(s: State): State {
    if s.terminal.Some? then s
    else Noted(s, CancelAccepted).(cancelRequested := true, pc := Settle(s.pc, ByCancel))
  }

  // close cancels a started run first, and marks the session once that call returned.
  function OnClose(s: State): State {
    if s.terminal.None? && !s.pc.NotStarted? then OnCancel(s).(closing := s.closing + 1) else s.(closed := true)
  }

  function Next(s: State, a: Action): State {
    match a
    case StartRun(text) => Start(s, text)
    case Pull(id, approvalId) => if Unused(s.emitter, id) then OnPull(s, id, approvalId) else s
    case ConsumerReturns => if AtYield(s.pc) then s.(pc := Abandoned) else s
    case RaceResumes(id) => if Unused(s.emitter, id) then OnRace(s, id) else s
    case HoldResumes(id) => if Unused(s.emitter, id) then OnHold(s, id) else s
    case Decide(approvalId, decision) => OnDecide(s, approvalId, decision)
    case Steer(text) => OnSteer(s, text)
    case Cancel => OnCancel(s)
    case CloseSession => OnClose(s)
    case CloseResumes => if s.closing > 0 then s.(closing := s.closing - 1, closed := true) else s
  }

  function Exec(s: State, actions: seq<Action>): State
    decreases |actions|
  {
    if actions == [] then s else Exec(Next(s, actions[0]), actions[1..])
  }

  lemma {:induction false} ExecThen(s: State, actions: seq<Action>, a: Action)
    ensures Exec(s, actions + [a]) == Next(Exec(s, actions), a)
    decreases |actions|
  {
    hide Next;
    if actions == [] {
      assert (actions + [a])[1..] == [];
    } else {
      assert (actions + [a])[1..] == actions[1..] + [a];
      ExecThen(Next(s, actions[0]), actions[1..], a);
    }
  }
}
