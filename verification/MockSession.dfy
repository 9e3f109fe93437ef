// The session record of the mock adapter, updated in place by its generator and its commands.
//
// View() projects the record to the step system; each method is the code between two suspensions
// and moves the view by exactly one step.
module MockSession {
  import opened Wrappers
  import opened Events
  import opened MockModel
  import MockTheorems

  datatype Refusal = PolicyDenied | ProtocolMismatch | ApprovalRequired

  datatype CancelAnswer = CancelAnswer(cancelled: bool, confirmed: bool, alreadyTerminal: bool)

  class MockSession {
    const emit: EventFactory
    var text: string
    var pc: Pc
    var pendingApproval: Option<Approval>
    var cancelRequested: bool
    var terminal: Option<EventType>
    var closed: bool
    var closing: nat
    var artifacts: nat
    var steering: seq<string>
    ghost var history: seq<Action>
    ghost var notes: seq<Note>

    ghost predicate Coherent()
      reads this, emit
    {
      emit.Valid()
    }

    ghost function View(): State
      reads this`text, this`pc, this`pendingApproval, this`cancelRequested, this`terminal, this`closed, this`closing,
        this`artifacts, this`steering, this`notes, emit
    {
      State(text, Emitter(emit.binding, emit.sequence, emit.made), pc, pendingApproval, cancelRequested,
            terminal, closed, closing, artifacts, steering, notes)
    }

    // Between two suspensions the session is where its history leads.
    ghost predicate Valid()
      reads this, emit
    {
      Coherent() && View() == Exec(Init(emit.binding), history)
    }

    constructor (binding: Binding)
      ensures Valid() && fresh(emit) && View() == Init(binding)
    {
      emit := new EventFactory(binding);
      text, pc, pendingApproval, cancelRequested, terminal := "", NotStarted, None, false, None;
      closed, closing, artifacts, steering, notes, history := false, 0, 0, [], [], [];
    }

    // Where one more step leads.
    lemma Follows(a: Action)
      requires Valid()
      ensures Coherent() && Exec(Init(emit.binding), history + [a]) == Next(View(), a)
    {
      ExecThen(Init(emit.binding), history, a);
    }

    // ----- The generator -----

    // startRun: runStarted is `!pc.NotStarted?`.
    method StartRun(prompt: string) returns (r: Result<(), Refusal>)
      requires Valid()
      modifies this`history, this`text, this`pc
      ensures Valid() && history == old(history) + [Action.StartRun(prompt)]
        && View() == Next(old(View()), Action.StartRun(prompt))
      ensures r ==
        if closed then Err(PolicyDenied)
        else if !old(pc).NotStarted? || prompt == "" then Err(ProtocolMismatch)
        else Ok(())
    {
      Follows(Action.StartRun(prompt));
      history := history + [Action.StartRun(prompt)];
      hide Exec;
      hide Unused;
      if closed {
        return Err(PolicyDenied);
      }
      if !pc.NotStarted? {
        return Err(ProtocolMismatch);
      }
      if prompt == "" {
        return Err(ProtocolMismatch);
      }
      text, pc := prompt, Created;
      return Ok(());
    }

    method Yield(id: nat, kind: EventType, next: Pc) returns (event: Event)
      requires Coherent() && Unused(View().emitter, id)
      modifies this`pc, emit
      ensures Coherent()
      ensures View() == MockModel.Yield(old(View()), id, kind, next)
      ensures View().emitter.events == old(View().emitter.events) + [event]
    {
      hide Numbered;
      event := emit.Make(id, kind);
      pc := next;
    }

    method Proceed(id: nat) returns (event: Event)
      requires Coherent() && Unused(View().emitter, id)
      modifies this`pc, this`notes, emit
      ensures Coherent()
      ensures View() == MockModel.Proceed(old(View()), id)
      ensures View().emitter.events == old(View().emitter.events) + [event]
    {
      hide Unused;
      if Holds(text) {
        event := Yield(id, Progress, AtProgress);
        return;
      }
      notes := notes + [Checked];
      if cancelRequested {
        event := Yield(id, CancelRequested, AtCancelRequested);
        return;
      }
      event := Yield(id, MessageCompleted, AtMessage);
    }

    // 106-131: the approval is registered before it is announced.
    method AfterStarted(id: nat, approvalId: nat) returns (event: Event)
      requires Coherent() && Unused(View().emitter, id)
      modifies this`pc, this`notes, this`pendingApproval, emit
      ensures Coherent()
      ensures View() == MockModel.AfterStarted(old(View()), id, approvalId)
      ensures View().emitter.events == old(View().emitter.events) + [event]
    {
      hide Unused;
      hide MockModel.Proceed;
      if AsksApproval(text) {
        pendingApproval := Some(Approval(approvalId, Undecided, None));
        event := Yield(id, ApprovalRequested, AtRequested);
      } else {
        event := Proceed(id);
      }
    }

    // 127-130
    method EnterRace()
      requires Coherent()
      modifies this`pc, this`notes
      ensures Coherent() && View() == MockModel.EnterRace(old(View()))
    {
      notes := notes + [RaceEntered];
      if pendingApproval.Some? && pendingApproval.value.resolved.Some? {
        pc := AwaitRace(Some(ByDecision(pendingApproval.value.resolved.value)));
      } else if cancelRequested {
        pc := AwaitRace(Some(ByCancel));
      } else {
        pc := AwaitRace(None);
      }
    }

    // 145-153
    method AfterDecided(id: nat, decision: Decision) returns (event: Event)
      requires Coherent() && Unused(View().emitter, id)
      modifies this`pc, this`notes, this`pendingApproval, emit
      ensures Coherent()
      ensures View() == MockModel.AfterDecided(old(View()), id, decision)
      ensures View().emitter.events == old(View().emitter.events) + [event]
    {
      hide Unused;
      hide MockModel.Proceed;
      if pendingApproval.Some? {
        pendingApproval := Some(pendingApproval.value.(status := if decision.Approve? then Approved else Denied));
      }
      if !decision.Approve? {
        event := Yield(id, RunFailed, AtTerminal(RunFailed));
        return;
      }
      event := Proceed(id);
    }

    // 171-185: the yields from the message on.
    method YieldResult(id: nat) returns (event: Event)
      requires Coherent() && Unused(View().emitter, id) && (pc.AtMessage? || pc.AtArtifact? || pc.AtUsage?)
      modifies this`pc, this`artifacts, emit
      ensures Coherent() && forall approvalId :: View() == OnPull(old(View()), id, approvalId)
      ensures View().emitter.events == old(View().emitter.events) + [event]
    {
      hide Unused;
      hide Numbered;
      match pc {
        case AtMessage =>
          artifacts := artifacts + 1;
          event := Yield(id, ArtifactCreated, AtArtifact);
        case AtArtifact => event := Yield(id, UsageUpdated, AtUsage);
        case AtUsage => event := Yield(id, RunSucceeded, AtTerminal(RunSucceeded));
      }
    }

    // The generator from one suspension to the next.
    method Continue(id: nat, approvalId: nat) returns (event: Option<Event>)
      requires Coherent() && Unused(View().emitter, id)
      modifies this`pc, this`notes, this`pendingApproval, this`artifacts, this`terminal, emit
      ensures Coherent() && View() == OnPull(old(View()), id, approvalId)
      ensures View().emitter.events == old(View().emitter.events) + (if event.Some? then [event.value] else [])
    {
      hide Unused;
      hide Numbered;
      hide MockModel.AfterStarted;
      hide MockModel.AfterDecided;
      hide MockModel.EnterRace;
      event := None;
      var e: Event;
      match pc {
        case Created => e := Yield(id, RunStarted, AtStarted); event := Some(e);
        case AtStarted => e := AfterStarted(id, approvalId); event := Some(e);
        case AtRequested => e := Yield(id, WaitingApproval, AtWaiting); event := Some(e);
        case AtWaiting => EnterRace();
        case AtDecided(decision) => e := AfterDecided(id, decision); event := Some(e);
        case AtProgress => pc := AwaitCancel;
        case AtCancelRequested => e := Yield(id, RunCancelled, AtTerminal(RunCancelled)); event := Some(e);
        case AtMessage => e := YieldResult(id); event := Some(e);
        case AtArtifact => e := YieldResult(id); event := Some(e);
        case AtUsage => e := YieldResult(id); event := Some(e);
        case AtTerminal(kind) => terminal, pc := Some(kind), Finished;
        case _ =>
      }
    }

    method Pull(id: nat, approvalId: nat) returns (event: Option<Event>)
      requires Valid() && Unused(View().emitter, id)
      modifies this, emit
      ensures Valid() && history == old(history) + [Action.Pull(id, approvalId)]
      ensures View() == Next(old(View()), Action.Pull(id, approvalId))
      ensures View().emitter.events == old(View().emitter.events) + (if event.Some? then [event.value] else [])
    {
      Follows(Action.Pull(id, approvalId));
      hide Exec;
      hide Unused;
      hide Numbered;
      hide OnPull;
      event := Continue(id, approvalId);
      history := history + [Action.Pull(id, approvalId)];
    }

    method ConsumerReturn()
      requires Valid()
      modifies this`history, this`pc
      ensures Valid() && history == old(history) + [ConsumerReturns] && View() == Next(old(View()), ConsumerReturns)
    {
      Follows(ConsumerReturns);
      history := history + [ConsumerReturns];
      hide Exec;
      if AtYield(pc) {
        pc := Abandoned;
      }
    }

    method ResumeRace(id: nat) returns (event: Option<Event>)
      requires Valid() && Unused(View().emitter, id)
      modifies this`history, this`pc, emit
      ensures Valid() && history == old(history) + [RaceResumes(id)]
      ensures View() == Next(old(View()), RaceResumes(id))
      ensures View().emitter.events == old(View().emitter.events) + (if event.Some? then [event.value] else [])
    {
      Follows(RaceResumes(id));
      history := history + [RaceResumes(id)];
      hide Exec;
      hide Unused;
      hide Numbered;
      event := None;
      if !pc.AwaitRace? || pc.winner.None? {
        return;
      }
      var e: Event;
      match pc.winner.value {
        case ByCancel => e := Yield(id, CancelRequested, AtCancelRequested);
        case ByDecision(decision) => e := Yield(id, ApprovalDecided, AtDecided(decision));
      }
      event := Some(e);
    }

    method ResumeHold(id: nat) returns (event: Option<Event>)
      requires Valid() && Unused(View().emitter, id)
      modifies this`history, this`pc, emit
      ensures Valid() && history == old(history) + [HoldResumes(id)]
      ensures View() == Next(old(View()), HoldResumes(id))
      ensures View().emitter.events == old(View().emitter.events) + (if event.Some? then [event.value] else [])
    {
      Follows(HoldResumes(id));
      history := history + [HoldResumes(id)];
      hide Exec;
      hide Unused;
      hide Numbered;
      event := None;
      if pc.AwaitCancel? && cancelRequested {
        var e := Yield(id, CancelRequested, AtCancelRequested);
        event := Some(e);
      }
    }

    // ----- The commands -----

    // The deferred keeps its first value; a race that is being awaited goes to this side.
    method DecideApproval(approvalId: nat, decision: Option<Decision>) returns (r: Result<(), Refusal>)
      requires Valid()
      modifies this`history, this`pendingApproval, this`pc, this`notes
      ensures Valid() && history == old(history) + [Decide(approvalId, decision)]
        && View() == Next(old(View()), Decide(approvalId, decision))
      ensures r.Ok? <==> Deciding(old(View()), approvalId, decision)
      ensures r == Err(ApprovalRequired) <==> old(pendingApproval).None? || old(pendingApproval).value.id != approvalId
    {
      Follows(Decide(approvalId, decision));
      history := history + [Decide(approvalId, decision)];
      hide Exec;
      hide Unused;
      if pendingApproval.None? || pendingApproval.value.id != approvalId {
        return Err(ApprovalRequired);
      }
      if !pendingApproval.value.status.Undecided? {
        return Err(ProtocolMismatch);
      }
      if decision.None? {
        return Err(ProtocolMismatch);
      }
      notes := notes + [Accepted(decision.value)];
      if pendingApproval.value.resolved.None? {
        pendingApproval := Some(pendingApproval.value.(resolved := decision));
        pc := Settle(pc, ByDecision(decision.value));
      }
      return Ok(());
    }

    method Steer(instruction: string) returns (r: Result<(), Refusal>)
      requires Valid()
      modifies this`history, this`steering
      ensures Valid() && history == old(history) + [Action.Steer(instruction)]
        && View() == Next(old(View()), Action.Steer(instruction))
      ensures r == if terminal.Some? then Err(PolicyDenied) else if instruction == "" then Err(ProtocolMismatch)
        else Ok(())
    {
      Follows(Action.Steer(instruction));
      history := history + [Action.Steer(instruction)];
      hide Exec;
      hide Unused;
      if terminal.Some? {
        return Err(PolicyDenied);
      }
      if instruction == "" {
        return Err(ProtocolMismatch);
      }
      steering := steering + [instruction];
      return Ok(());
    }

    method AcceptCancel()
      requires Coherent()
      modifies this`cancelRequested, this`pc, this`notes
      ensures Coherent() && View() == OnCancel(old(View()))
    {
      if terminal.None? {
        cancelRequested := true;
        notes := notes + [CancelAccepted];
        pc := Settle(pc, ByCancel);
      }
    }

    method Cancel() returns (r: CancelAnswer)
      requires Valid()
      modifies this`history, this`cancelRequested, this`pc, this`notes
      ensures Valid() && history == old(history) + [Action.Cancel] && View() == Next(old(View()), Action.Cancel)
      ensures r == CancelAnswer(terminal.None?, true, terminal.Some?)
    {
      Follows(Action.Cancel);
      history := history + [Action.Cancel];
      hide Exec;
      hide Unused;
      hide OnCancel;
      AcceptCancel();
      return if terminal.Some? then CancelAnswer(false, true, true) else CancelAnswer(true, true, false);
    }

    method Close()
      requires Valid()
      modifies this`history, this`cancelRequested, this`pc, this`notes, this`closing, this`closed
      ensures Valid() && history == old(history) + [CloseSession] && View() == Next(old(View()), CloseSession)
    {
      Follows(CloseSession);
      history := history + [CloseSession];
      hide Exec;
      hide Unused;
      hide OnCancel;
      if terminal.None? && !pc.NotStarted? {
        AcceptCancel();
        closing := closing + 1;
      } else {
        closed := true;
      }
    }

    // The cancel inside close returned.
    method ResumeClose()
      requires Valid()
      modifies this`history, this`closing, this`closed
      ensures Valid() && history == old(history) + [CloseResumes] && View() == Next(old(View()), CloseResumes)
    {
      Follows(CloseResumes);
      history := history + [CloseResumes];
      hide Exec;
      if closing > 0 {
        closing, closed := closing - 1, true;
      }
    }

    // ----- What holds of every session -----

    // A consumed run ended in its one terminal event, the reference outcome of what was accepted.
    lemma RunOutcome()
      requires Valid() && pc.Finished?
      ensures EndsOnce(Kinds(View().emitter)) && terminal == Some(Kinds(View().emitter)[|Kinds(View().emitter)| - 1])
      ensures terminal == MockTheorems.Verdict(text, notes)
      ensures terminal == Some(RunCancelled) ==> CancelAccepted in notes
    {
      MockTheorems.RunOutcome(emit.binding, history);
    }

    // On an approval prompt no part of a result has left unless the first accepted decision was
    // approve.
    lemma FailClosed()
      requires Valid() && AsksApproval(text)
      requires exists k :: 0 <= k < |emit.made| && MockTheorems.Success(emit.made[k].kind)
      ensures MockTheorems.FirstDecision(notes) == Some(Approve)
      ensures pendingApproval.Some? && pendingApproval.value.resolved == Some(Approve)
    {
      MockTheorems.FailClosed(emit.binding, history);
      MockTheorems.Reachable(emit.binding, history);
    }
  }
}
