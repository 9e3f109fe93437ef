// The whole stream of a local-model run, event by event, and what its cancel answers.
module LocalStreams {
  import opened Wrappers
  import opened Events
  import opened LocalModel
  import opened LocalTheorems

  function Result(): seq<EventType> {
    [RunStarted, MessageCompleted, ArtifactCreated, UsageUpdated, RunSucceeded]
  }

  predicate Whole(kinds: seq<EventType>, artifacts: nat) {
    || (kinds == Result() && artifacts == 1)
    || ((kinds == [RunStarted, RunCancelled] || kinds == [RunStarted, RunFailed]) && artifacts == 0)
  }

  predicate Produced(pc: Pc, kinds: seq<EventType>, artifacts: nat) {
    match pc
    case Created => kinds == [] && artifacts == 0
    case AtMessage => kinds == Result()[..2] && artifacts == 0
    case AtArtifact => kinds == Result()[..3] && artifacts == 1
    case AtUsage => kinds == Result()[..4] && artifacts == 1
    case AtTerminal => Whole(kinds, artifacts)
    case Finished => Whole(kinds, artifacts)
    case Threw => kinds == [] && artifacts == 0
    case Abandoned => true
    case _ => kinds == [RunStarted] && artifacts == 0
  }

  ghost predicate Producing(s: State) {
    Produced(s.pc, Kinds(s.emitter), s.artifacts)
  }

  lemma KindsEmit(e: Emitter, id: nat, kind: EventType)
    ensures Kinds(Emit(e, id, kind)) == Kinds(e) + [kind]
  {
  }

  lemma PullProduces(s: State, id: nat, prompted: bool)
    requires Producing(s)
    ensures Producing(OnPull(s, id, prompted))
  {
    match s.pc {
      case Created => KindsEmit(s.emitter, id, RunStarted);
      case AtMessage => KindsEmit(s.emitter, id, ArtifactCreated);
      case AtArtifact => KindsEmit(s.emitter, id, UsageUpdated);
      case AtUsage => KindsEmit(s.emitter, id, RunSucceeded);
      case _ =>
    }
    hide Kinds;
    hide Emit;
  }

  lemma AnswerProduces(s: State, id: nat, fetched: Fetched, body: Body)
    requires Producing(s)
    ensures Producing(OnFetch(s, id, fetched)) && Producing(OnErrorText(s, id)) && Producing(OnJson(s, id, body))
  {
    KindsEmit(s.emitter, id, RunCancelled);
    KindsEmit(s.emitter, id, RunFailed);
    KindsEmit(s.emitter, id, MessageCompleted);
    hide Kinds;
    hide Emit;
  }

  lemma StepProduces(s: State, a: Action)
    requires Producing(s)
    ensures Producing(Next(s, a))
  {
    hide OnPull;
    hide OnFetch;
    hide OnErrorText;
    hide OnJson;
    hide Kinds;
    match a {
      case Pull(id, prompted) => PullProduces(s, id, prompted);
      case FetchResumes(id, fetched) => AnswerProduces(s, id, fetched, Empty);
      case ErrorTextResumes(id) => AnswerProduces(s, id, Rejects, Empty);
      case JsonResumes(id, body) => AnswerProduces(s, id, Rejects, body);
      case _ =>
    }
  }

  lemma {:induction false} ExecProduces(s: State, actions: seq<Action>)
    requires Producing(s)
    ensures Producing(Exec(s, actions))
    decreases |actions|
  {
    hide Producing;
    hide Next;
    if actions != [] {
      StepProduces(s, actions[0]);
      ExecProduces(Next(s, actions[0]), actions[1..]);
    }
  }

  // A fully consumed stream is run.started and its verdict, or run.started, the message, its one
  // artifact, the usage and run.succeeded: in this order, nothing else.
  lemma StreamIsWhole(binding: Binding, actions: seq<Action>)
    requires Exec(Init(binding), actions).pc.Finished?
    ensures var s := Exec(Init(binding), actions); Whole(Kinds(s.emitter), s.artifacts)
  {
    assert Producing(Init(binding)) by { assert Kinds(Init(binding).emitter) == []; }
    ExecProduces(Init(binding), actions);
    hide Exec;
  }

  // In every reachable state cancel says that it cancelled or that the run was over, never both: over
  // exactly with a verdict, and then it changes nothing; confirmed exactly if the signal is
  // aborted now or the run was over.
  lemma CancelAnswersTruly(binding: Binding, actions: seq<Action>)
    ensures var s := Exec(Init(binding), actions); var answer, t := CancelAnswers(s), Next(s, Cancel);
      && answer.cancelled != answer.alreadyTerminal
      && (answer.alreadyTerminal <==> s.terminal.Some?) && (answer.alreadyTerminal ==> t == s)
      && (answer.confirmed <==> answer.alreadyTerminal || IsAborted(t))
  {
    Reachable(binding, actions);
    hide Exec;
  }

  // ----- The timer and closing -----

  // The timer runs only with a controller, and never past the end of a run or of the try block.
  ghost predicate Timed(s: State) {
    && (s.timer ==> s.controller.Controller?)
    && (s.pc.Finished? || (s.pc.Abandoned? && |Kinds(s.emitter)| >= 2) ==> !s.timer)
    && (s.pc.Created? || s.pc.AtStarted? ==> |Kinds(s.emitter)| <= 1)
  }

  lemma StepTimed(s: State, a: Action)
    requires Producing(s) && Timed(s)
    ensures Timed(Next(s, a))
  {
    StepProduces(s, a);
    hide Emit;
    hide Whole;
    match a {
      case Pull(id, prompted) => KindsEmit(s.emitter, id, RunStarted);
      case _ =>
    }
    hide Kinds;
  }

  lemma {:induction false} ExecTimed(s: State, actions: seq<Action>)
    requires Producing(s) && Timed(s)
    ensures Timed(Exec(s, actions))
    decreases |actions|
  {
    hide Producing;
    hide Timed;
    hide Next;
    if actions != [] {
      StepProduces(s, actions[0]);
      StepTimed(s, actions[0]);
      ExecTimed(Next(s, actions[0]), actions[1..]);
    }
  }

  // In every reachable state: a timer that is on aborts the signal when it fires, once, and one that
  // is off does nothing; it is off once the run is over or its consumer left the try block.
  lemma TimerAborts(binding: Binding, actions: seq<Action>)
    ensures var s := Exec(Init(binding), actions); var t := Next(s, TimerFires);
      && (if s.timer then IsAborted(t) && !t.timer else t == s)
      && (s.pc.Finished? || (s.pc.Abandoned? && |Kinds(s.emitter)| >= 2) ==> !s.timer)
  {
    assert Producing(Init(binding)) && Timed(Init(binding)) by { assert Kinds(Init(binding).emitter) == []; }
    ExecTimed(Init(binding), actions);
    hide Exec;
    hide Kinds;
  }

  // Close, in any state: the session is closed at once, and a run without a verdict is aborted.
  lemma CloseAborts(s: State)
    ensures var t := Next(s, CloseSession);
      && t.closed && t.pc == s.pc && t.terminal == s.terminal && t.emitter == s.emitter
      && (if s.terminal.None? && s.controller.Controller? then IsAborted(t) else t == s.(closed := true))
  {
  }

  // A session that was closed before its run began never yields an event.
  lemma {:induction false} ClosedNeverBegins(s: State, actions: seq<Action>)
    requires s.closed && (s.pc.Created? || s.pc.Threw? || s.pc.Abandoned?) && s.controller.NoController?
    ensures var t := Exec(s, actions); t.controller.NoController? && t.emitter == s.emitter
    decreases |actions|
  {
    if actions != [] {
      ClosedStep(s, actions[0]);
      hide Next;
      ClosedNeverBegins(Next(s, actions[0]), actions[1..]);
    }
  }

  lemma ClosedStep(s: State, a: Action)
    requires s.closed && (s.pc.Created? || s.pc.Threw? || s.pc.Abandoned?) && s.controller.NoController?
    ensures var t := Next(s, a);
      && t.closed && (t.pc.Created? || t.pc.Threw? || t.pc.Abandoned?) && t.controller.NoController?
      && t.emitter == s.emitter
  {
  }
}
