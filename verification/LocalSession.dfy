// The session record of the local-model adapter, updated in place by its generator, its timer,
// cancel and close.
//
// View() projects the record to the step system; each method is the code between two suspensions
// and moves the view by exactly one step.
module LocalSession {
  import opened Wrappers
  import opened Events
  import opened LocalModel
  import LocalTheorems

  class AbortController {
    var aborted: bool

    constructor ()
      ensures !aborted
    {
      aborted := false;
    }

    method Abort()
      modifies this
      ensures aborted
    {
      aborted := true;
    }
  }

  class LocalSession {
    const emit: EventFactory
    var controller: AbortController?
    var timer: bool
    var terminal: Option<EventType>
    var closed: bool
    var artifacts: nat
    var pc: Pc
    ghost var history: seq<Action>
    ghost var notes: seq<Note>

    ghost predicate Coherent()
      reads this, emit
    {
      emit.Valid()
    }

    ghost function View(): State
      reads this`controller, this`timer, this`terminal, this`closed, this`artifacts, this`pc, this`notes, emit,
        controller
    {
      State(Emitter(emit.binding, emit.sequence, emit.made),
            if controller == null then NoController else Controller(controller.aborted),
            timer, terminal, closed, artifacts, pc, notes)
    }

    // Between two suspensions the session is where its history leads.
    ghost predicate Valid()
      reads this, emit, controller
    {
      Coherent() && View() == Exec(Init(emit.binding), history)
    }

    constructor (binding: Binding)
      ensures Valid() && fresh(emit) && controller == null && View() == Init(binding)
    {
      emit := new EventFactory(binding);
      controller, timer, terminal, closed := null, false, None, false;
      artifacts, pc, notes, history := 0, Created, [], [];
    }

    // Where one more step leads.
    lemma Follows(a: Action)
      requires Valid()
      ensures Coherent() && Exec(Init(emit.binding), history + [a]) == Next(View(), a)
    {
      ExecThen(Init(emit.binding), history, a);
    }

    // ----- The generator -----

    method Yield(id: nat, kind: EventType, next: Pc) returns (event: Event)
      requires Coherent() && Unused(View().emitter, id)
      modifies this`pc, emit
      ensures Coherent()
      ensures View() == LocalModel.Yield(old(View()), id, kind, next)
      ensures View().emitter.events == old(View().emitter.events) + [event]
    {
      hide Numbered;
      event := emit.Make(id, kind);
      pc := next;
    }

    method YieldTerminal(id: nat, kind: EventType) returns (event: Event)
      requires Coherent() && Unused(View().emitter, id)
      modifies this`pc, this`terminal, emit
      ensures Coherent()
      ensures View() == LocalModel.YieldTerminal(old(View()), id, kind)
      ensures View().emitter.events == old(View().emitter.events) + [event]
    {
      hide Unused;
      terminal := Some(kind);
      event := Yield(id, kind, AtTerminal);
    }

    // 122-141: up to the first yield.
    method Begin(id: nat, prompted: bool) returns (event: Option<Event>)
      requires Coherent() && Unused(View().emitter, id) && pc.Created?
      modifies this`pc, this`controller, this`timer, emit
      ensures Coherent() && (controller == old(controller) || fresh(controller))
      ensures View() == OnPull(old(View()), id, prompted)
      ensures View().emitter.events == old(View().emitter.events) + (if event.Some? then [event.value] else [])
    {
      hide Unused;
      hide Numbered;
      event := None;
      if closed || controller != null || !prompted {
        pc := Threw;
      } else {
        controller := new AbortController();
        timer := true;
        var e := Yield(id, RunStarted, AtStarted);
        event := Some(e);
      }
    }

    // The generator from one suspension to the next.
    method Continue(id: nat, prompted: bool) returns (event: Option<Event>)
      requires Coherent() && Unused(View().emitter, id)
      modifies this`pc, this`controller, this`timer, this`artifacts, this`terminal, emit
      ensures Coherent() && (controller == old(controller) || fresh(controller))
      ensures View() == OnPull(old(View()), id, prompted)
      ensures View().emitter.events == old(View().emitter.events) + (if event.Some? then [event.value] else [])
    {
      hide Unused;
      hide Numbered;
      event := None;
      var e: Event;
      match pc {
        case Created => event := Begin(id, prompted);
        case AtStarted => pc := AwaitFetch;
        case AtMessage =>
          artifacts := artifacts + 1;
          e := Yield(id, ArtifactCreated, AtArtifact);
          event := Some(e);
        case AtArtifact => e := Yield(id, UsageUpdated, AtUsage); event := Some(e);
        case AtUsage => e := YieldTerminal(id, RunSucceeded); event := Some(e);
        case AtTerminal => timer, pc := false, Finished;
        case _ =>
      }
    }

    method Pull(id: nat, prompted: bool) returns (event: Option<Event>)
      requires Valid() && Unused(View().emitter, id)
      modifies this, emit
      ensures Valid() && history == old(history) + [Action.Pull(id, prompted)]
      ensures controller == old(controller) || fresh(controller)
      ensures View() == Next(old(View()), Action.Pull(id, prompted))
      ensures View().emitter.events == old(View().emitter.events) + (if event.Some? then [event.value] else [])
    {
      Follows(Action.Pull(id, prompted));
      hide Exec;
      hide Unused;
      hide Numbered;
      hide OnPull;
      event := Continue(id, prompted);
      history := history + [Action.Pull(id, prompted)];
    }

    method ConsumerReturn()
      requires Valid()
      modifies this`history, this`pc, this`timer
      ensures Valid() && history == old(history) + [ConsumerReturns] && View() == Next(old(View()), ConsumerReturns)
    {
      Follows(ConsumerReturns);
      history := history + [ConsumerReturns];
      hide Exec;
      hide Unused;
      if !AtYield(pc) {
        return;
      }
      if !pc.Created? && !pc.AtStarted? {
        timer := false;
      }
      pc := Abandoned;
    }

    // The catch block.
    method Catch(id: nat) returns (event: Event)
      requires Coherent() && Unused(View().emitter, id)
      modifies this`pc, this`terminal, this`notes, emit
      ensures Coherent()
      ensures View() == LocalModel.Catch(old(View()), id)
      ensures View().emitter.events == old(View().emitter.events) + [event]
    {
      hide Unused;
      notes := notes + [Settled(false)];
      if controller != null && controller.aborted {
        event := YieldTerminal(id, RunCancelled);
      } else {
        event := YieldTerminal(id, RunFailed);
      }
    }

    method ResumeFetch(id: nat, fetched: Fetched) returns (event: Option<Event>)
      requires Valid() && Unused(View().emitter, id)
      modifies this, emit
      ensures Valid() && history == old(history) + [FetchResumes(id, fetched)] && controller == old(controller)
      ensures View() == Next(old(View()), FetchResumes(id, fetched))
      ensures View().emitter.events == old(View().emitter.events) + (if event.Some? then [event.value] else [])
    {
      Follows(FetchResumes(id, fetched));
      history := history + [FetchResumes(id, fetched)];
      hide Exec;
      hide Unused;
      hide Numbered;
      hide LocalModel.Catch;
      event := None;
      if !pc.AwaitFetch? {
        return;
      }
      match fetched {
        case Rejects =>
          var e := Catch(id);
          event := Some(e);
        case BadStatus => pc := AwaitErrorText;
        case GoodStatus => pc := AwaitJson;
      }
    }

    method ResumeErrorText(id: nat) returns (event: Option<Event>)
      requires Valid() && Unused(View().emitter, id)
      modifies this, emit
      ensures Valid() && history == old(history) + [ErrorTextResumes(id)] && controller == old(controller)
      ensures View() == Next(old(View()), ErrorTextResumes(id))
      ensures View().emitter.events == old(View().emitter.events) + (if event.Some? then [event.value] else [])
    {
      Follows(ErrorTextResumes(id));
      history := history + [ErrorTextResumes(id)];
      hide Exec;
      hide Unused;
      hide Numbered;
      hide LocalModel.Catch;
      event := None;
      if pc.AwaitErrorText? {
        var e := Catch(id);
        event := Some(e);
      }
    }

    method ResumeJson(id: nat, body: Body) returns (event: Option<Event>)
      requires Valid() && Unused(View().emitter, id)
      modifies this, emit
      ensures Valid() && history == old(history) + [JsonResumes(id, body)] && controller == old(controller)
      ensures View() == Next(old(View()), JsonResumes(id, body))
      ensures View().emitter.events == old(View().emitter.events) + (if event.Some? then [event.value] else [])
    {
      Follows(JsonResumes(id, body));
      history := history + [JsonResumes(id, body)];
      hide Exec;
      hide Unused;
      hide Numbered;
      hide LocalModel.Catch;
      event := None;
      if !pc.AwaitJson? {
        return;
      }
      var e: Event;
      if body.Output? {
        notes := notes + [Settled(true)];
        e := Yield(id, MessageCompleted, AtMessage);
      } else {
        e := Catch(id);
      }
      event := Some(e);
    }

    // ----- Aborts -----

    method Abort(source: Source)
      requires Coherent()
      modifies this`notes, controller
      ensures Coherent() && View() == LocalModel.Abort(old(View()), source)
    {
      if controller != null {
        controller.Abort();
        notes := notes + [Aborted(source)];
      }
    }

    method TimerFired()
      requires Valid()
      modifies this`history, this`notes, this`timer, controller
      ensures Valid() && history == old(history) + [TimerFires] && View() == Next(old(View()), TimerFires)
    {
      Follows(TimerFires);
      history := history + [TimerFires];
      hide Exec;
      hide Unused;
      if timer {
        Abort(ByTimer);
        timer := false;
      }
    }

    method Cancel() returns (r: CancelAnswer)
      requires Valid()
      modifies this`history, this`notes, controller
      ensures Valid() && history == old(history) + [Action.Cancel] && View() == Next(old(View()), Action.Cancel)
      ensures r == CancelAnswers(old(View()))
    {
      Follows(Action.Cancel);
      history := history + [Action.Cancel];
      hide Exec;
      hide Unused;
      if terminal.Some? {
        return CancelAnswer(false, true, true);
      }
      if controller == null {
        return CancelAnswer(true, false, false);
      }
      Abort(ByCancel);
      return CancelAnswer(true, true, false);
    }

    method Close()
      requires Valid()
      modifies this`history, this`notes, this`closed, controller
      ensures Valid() && history == old(history) + [CloseSession] && View() == Next(old(View()), CloseSession)
    {
      Follows(CloseSession);
      history := history + [CloseSession];
      hide Exec;
      hide Unused;
      if terminal.None? && controller != null {
        Abort(ByClose);
      }
      closed := true;
    }

    // ----- What holds of every session -----

    // A consumed run ended in its one terminal event, the reference outcome of its aborts and its
    // HTTP call, and never in a timeout.
    lemma RunOutcome()
      requires Valid() && pc.Finished?
      ensures EndsOnce(Kinds(View().emitter)) && terminal == Some(Kinds(View().emitter)[|Kinds(View().emitter)| - 1])
      ensures terminal == LocalTheorems.Verdict(notes) && terminal != Some(RunTimedOut)
    {
      LocalTheorems.RunOutcome(emit.binding, history);
    }
  }
}
