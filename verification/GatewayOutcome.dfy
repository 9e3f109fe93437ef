// What becomes of one run, read from the answers its frame was given.
//
// The story of a run is the list of what its frame heard, in order.  Everything the run shows and
// everything its adapter saw is a reading of that list, which knows nothing of the frame.
module GatewayOutcome {
  import opened Wrappers
  import Events
  import opened GatewayModel
  import opened GatewayInvariant
  import opened GatewayTheorems
  import opened GatewaySessions
  import opened GatewayEdges
  import opened GatewayFinality
  import Queue = PersistQueue
  import Pool = WorkerPool

  datatype Heard =
    | Claimed(cancelled: bool, enabled: bool)
    | Checked(health: Health)
    | Opened(ok: bool)
    | Written(ok: bool)              // the write it awaited came back
    | Streamed(step: StreamStep)
    | IteratorClosed
    | Collected(artifact: ArtifactStep)
    | SessionClosed

  function Hears(s: Sys, a: Action, i: nat): seq<Heard> {
    if !InRange(s, i) then [] else
      var pc := s.tasks[i].pc;
      match a
      case WorkerResumes(_, enabled) =>
        if pc.Unclaimed? && InRange(Next(s, a), i) && !Next(s, a).tasks[i].pc.Unclaimed?
        then [Claimed(s.job.cancelRequested, enabled)] else []
      case HealthReturns(k, health) => if k == i && pc.AwaitHealth? then [Checked(health)] else []
      case SessionReturns(k, ok) => if k == i && pc.AwaitCreateSession? then [Opened(ok)] else []
      case PersistReturns(k) =>
        var op := AwaitedWrite(pc);
        if k == i && op.Some? && Back(s, op.value) then [Written(Saved(s, op.value))] else []
      case StreamReturns(k, step) => if k == i && pc.AwaitNext? then [Streamed(step)] else []
      case IteratorReturns(k) => if k == i && pc.AwaitReturn? then [IteratorClosed] else []
      case ArtifactReturns(k, artifact) => if k == i && pc.AwaitArtifacts? then [Collected(artifact)] else []
      case CloseReturns(k) => if k == i && pc.AwaitClose? then [SessionClosed] else []
      case _ => []
  }

  function Story(s: Sys, actions: seq<Action>, i: nat): seq<Heard>
    decreases |actions|
  {
    if actions == [] then [] else Hears(s, actions[0], i) + Story(Next(s, actions[0]), actions[1..], i)
  }

  // ----- Reading a story -----

  function EventsOf(story: seq<Heard>): seq<Events.EventType> {
    if story == [] then []
    else
      var last := story[|story| - 1];
      EventsOf(story[..|story| - 1]) + (if last.Streamed? && last.step.Yields? then [last.step.event] else [])
  }

  // Each artifact once, where it came first.
  function ArtifactsOf(story: seq<Heard>): seq<nat> {
    if story == [] then []
    else
      var before, last := ArtifactsOf(story[..|story| - 1]), story[|story| - 1];
      if last.Collected? && last.artifact.Artifact? && last.artifact.id !in before
      then before + [last.artifact.id] else before
  }

  // A write that is lost here is caught: it was to save RUNNING or an event.
  predicate Guarded(story: seq<Heard>) {
    story != [] &&
    var last := story[|story| - 1];
    last == Opened(true) || (last.Streamed? && last.step.Yields?)
  }

  // The error that `note`, heard after `story`, gives the run.
  function Blame(story: seq<Heard>, note: Heard): Option<ErrorCode> {
    match note
    case Claimed(cancelled, enabled) => if !cancelled && !enabled then Some(AdapterUnhealthy) else None
    case Checked(health) => if health.Unhealthy? then Some(AdapterUnhealthy) else None
    case Opened(ok) => if ok then None else Some(FromAdapter)
    case Written(ok) =>
      if !ok && story != [] && story[|story| - 1] == Opened(true) then Some(FromDisk) else None
    case Streamed(step) => if step.Throws? then Some(FromAdapter) else None
    case IteratorClosed => Some(FromDisk)
    case Collected(artifact) =>
      if artifact.CollectThrows? then Some(FromAdapter)
      else if artifact.NoMore? && LastTerminal(EventsOf(story)).None? then Some(ProtocolMismatch)
      else None
    case SessionClosed => None
  }

  // The first error is the run's error.
  function Failure(story: seq<Heard>): Option<ErrorCode> {
    if story == [] then None
    else
      var before := Failure(story[..|story| - 1]);
      if before.Some? then before else Blame(story[..|story| - 1], story[|story| - 1])
  }

  // Something threw that nothing catches: the health check, or a write outside the try block or in
  // its catch and finally blocks.
  predicate Uncaught(story: seq<Heard>) {
    story != [] && (
      || Uncaught(story[..|story| - 1])
      || story[|story| - 1] == Checked(HealthThrows)
      || (story[|story| - 1] == Written(false) && !Guarded(story[..|story| - 1])))
  }

  // The path to a stream: enabled, healthy, STARTING saved, session opened.
  function Begun(): seq<Heard> {
    [Claimed(false, true)]
  }

  function Ready(): seq<Heard> {
    [Claimed(false, true), Checked(Healthy), Written(true)]
  }

  function Opening(): seq<Heard> {
    [Claimed(false, true), Checked(Healthy), Written(true), Opened(true)]
  }

  function Started(): seq<Heard> {
    [Claimed(false, true), Checked(Healthy), Written(true), Opened(true), Written(true)]
  }

  // The stream and the artifacts were read to their end, and the stream named an outcome.
  predicate Completed(story: seq<Heard>) {
    && Started() <= story && Streamed(Ends) in story && Collected(NoMore) in story
    && LastTerminal(EventsOf(story)).Some?
  }

  predicate Over(story: seq<Heard>) {
    Failure(story).Some? || Completed(story)
  }

  // ----- What the story says of the run and its session -----

  predicate StateTold(state: RunState, story: seq<Heard>) {
    if Failure(story).Some? then state == FAILED
    else if Opening() <= story then
      state == match LastTerminal(EventsOf(story)) case Some(named) => named case None => RUNNING
    else if story != [] && story[0].Claimed? && story[0].cancelled then state == CANCELLED
    else if Checked(Healthy) in story then state == STARTING || state == CANCELLED
    else state == QUEUED || state == CANCELLED
  }

  predicate RunTold(run: Run, story: seq<Heard>) {
    && run.events == EventsOf(story) && run.artifacts == ArtifactsOf(story) && run.error == Failure(story)
    && StateTold(run.state, story)
  }

  predicate SessionTold(task: Task, story: seq<Heard>) {
    && task.healthChecks == (if Begun() <= story then 1 else 0)
    && (task.session.Some? <==> Opening() <= story)
    && (task.session.Some? ==> task.session.value.starts == (if Started() <= story then 1 else 0))
  }

  // In the try block with a session, and nothing has gone wrong.
  predicate Smooth(story: seq<Heard>) {
    Opening() <= story && Failure(story).None? && !Uncaught(story)
  }

  // Where the frame stands.
  predicate PlaceTold(pc: Pc, story: seq<Heard>) {
    match pc
    case Unclaimed => story == []
    case AwaitCancelPersist(_) => |story| == 1 && story[0].Claimed? && story[0].cancelled
    case AwaitHealth => story == Begun()
    case AwaitFailPersist(_) => story == [Claimed(false, false)] || story == Begun() + [Checked(Unhealthy)]
    case AwaitStartingPersist(_) => story == Begun() + [Checked(Healthy)]
    case AwaitCreateSession => story == Ready()
    case AwaitRunningPersist(_) => story == Opening()
    case AwaitNext => Smooth(story) && Started() <= story && !Guarded(story)
    case AwaitEventPersist(_) =>
      Smooth(story) && Started() <= story && Guarded(story) && story[|story| - 1] != Opened(true)
    case AwaitReturn => Smooth(story) && Started() <= story && !Guarded(story)
    case AwaitArtifacts => Smooth(story) && Started() <= story && !Guarded(story) && Streamed(Ends) in story
    case AwaitCatchPersist(_) => Failure(story).Some? && !Uncaught(story) && !Guarded(story)
    case AwaitClose(rethrow) => Over(story) && (rethrow <==> Uncaught(story)) && !Guarded(story)
    case AwaitFinalPersist(_, rethrow) => Over(story) && (rethrow <==> Uncaught(story)) && !Guarded(story)
    case Done => !Uncaught(story) && (Over(story) || (story != [] && story[0].Claimed? && story[0].cancelled))
    case Threw => Uncaught(story) && (Opening() <= story ==> Over(story))
  }

  predicate Told(run: Run, task: Task, story: seq<Heard>) {
    RunTold(run, story) && SessionTold(task, story) && PlaceTold(task.pc, story)
  }

  // ----- One note later -----

  lemma StoryAppended(story: seq<Heard>, note: Heard)
    ensures var all := story + [note];
      && EventsOf(all) == (
           if note.Streamed? && note.step.Yields? then EventsOf(story) + [note.step.event] else EventsOf(story))
      && ArtifactsOf(all) == (
           if note.Collected? && note.artifact.Artifact? && note.artifact.id !in ArtifactsOf(story)
           then ArtifactsOf(story) + [note.artifact.id] else ArtifactsOf(story))
      && Failure(all) == (if Failure(story).Some? then Failure(story) else Blame(story, note))
      && (Uncaught(all) <==>
           Uncaught(story) || note == Checked(HealthThrows) || (note == Written(false) && !Guarded(story)))
      && (Guarded(all) <==> note == Opened(true) || (note.Streamed? && note.step.Yields?))
      && (forall x :: x in all <==> x in story || x == note)
      && |all| == |story| + 1 && all[|story|] == note && (story != [] ==> all[0] == story[0])
  {
    var all := story + [note];
    assert all[..|all| - 1] == story && all[|all| - 1] == note;
    hide Blame;
  }

  lemma PrefixAppended(prefix: seq<Heard>, story: seq<Heard>, note: Heard)
    ensures prefix <= story ==> prefix <= story + [note]
    ensures prefix <= story + [note] ==> prefix <= story || prefix == story + [note]
  {
    if prefix <= story + [note] && |prefix| <= |story| {
      assert prefix == (story + [note])[..|prefix|] == story[..|prefix|];
    }
  }

  lemma BegunReads()
    ensures EventsOf([]) == [] && ArtifactsOf([]) == [] && Failure([]).None? && !Uncaught([]) && !Guarded([])
    ensures var story := Begun();
      EventsOf(story) == [] && ArtifactsOf(story) == [] && Failure(story).None? && !Uncaught(story) && !Guarded(story)
  {
    assert [] + [Claimed(false, true)] == Begun();
    StoryAppended([], Claimed(false, true));
  }

  lemma ReadyReads()
    ensures var story := Begun() + [Checked(Healthy)];
      EventsOf(story) == [] && ArtifactsOf(story) == [] && Failure(story).None? && !Uncaught(story) && !Guarded(story)
    ensures var story := Ready();
      EventsOf(story) == [] && ArtifactsOf(story) == [] && Failure(story).None? && !Uncaught(story) && !Guarded(story)
  {
    hide EventsOf;
    hide ArtifactsOf;
    hide Failure;
    hide Uncaught;
    hide Guarded;
    BegunReads();
    StoryAppended(Begun(), Checked(Healthy));
    StoryAppended(Begun() + [Checked(Healthy)], Written(true));
    assert Begun() + [Checked(Healthy)] + [Written(true)] == Ready();
  }

  lemma OpeningReads()
    ensures var story := Opening();
      EventsOf(story) == [] && ArtifactsOf(story) == [] && Failure(story).None? && !Uncaught(story) && Guarded(story)
    ensures var story := Started();
      EventsOf(story) == [] && ArtifactsOf(story) == [] && Failure(story).None? && !Uncaught(story) && !Guarded(story)
  {
    hide EventsOf;
    hide ArtifactsOf;
    hide Failure;
    hide Uncaught;
    hide Guarded;
    ReadyReads();
    StoryAppended(Ready(), Opened(true));
    assert Ready() + [Opened(true)] == Opening();
    StoryAppended(Opening(), Written(true));
    assert Opening() + [Written(true)] == Started();
  }

  lemma OffPath(prefix: seq<Heard>, story: seq<Heard>, k: nat)
    requires k < |prefix| && k < |story| && story[k] != prefix[k]
    ensures !(prefix <= story)
  {
  }

  // Once a frame has gone past one of these points its story begins so.
  lemma PathAppended(story: seq<Heard>, note: Heard)
    ensures var all := story + [note];
      && (Begun() <= all <==> Begun() <= story || (story == [] && note == Claimed(false, true)))
      && (Opening() <= all <==> Opening() <= story || (story == Ready() && note == Opened(true)))
      && (Started() <= all <==> Started() <= story || (story == Opening() && note == Written(true)))
    ensures Opening() <= story ==> Begun() <= story
    ensures Started() <= story ==> Opening() <= story
  {
    var all := story + [note];
    PrefixAppended(Begun(), story, note);
    PrefixAppended(Opening(), story, note);
    PrefixAppended(Started(), story, note);
    assert story == all[..|all| - 1] && note == all[|all| - 1];
    assert [] + [Claimed(false, true)] == Begun();
    assert Ready() + [Opened(true)] == Opening() && Opening()[..3] == Ready();
    assert Opening() + [Written(true)] == Started() && Started()[..4] == Opening();
  }

  // ----- What the frame does with each answer -----

  // The run and the frame of run `i`, against a story.
  predicate ToldAt(s: Sys, i: nat, story: seq<Heard>) {
    InRange(s, i) && Told(s.job.runs[i], s.tasks[i], story)
  }

  lemma SayClaimed(s: Sys, i: nat, enabled: bool)
    requires ToldAt(s, i, []) && s.tasks[i].pc.Unclaimed? && s.tasks[i].healthChecks == 0
    ensures ToldAt(Begin(s, i, enabled), i, [Claimed(s.job.cancelRequested, enabled)])
  {
    hide EventsOf;
    hide ArtifactsOf;
    hide Failure;
    hide Uncaught;
    hide Guarded;
    hide Queue.Enqueue;
    BegunReads();
    var note := Claimed(s.job.cancelRequested, enabled);
    assert [] + [note] == [note];
    StoryAppended([], note);
  }

  lemma SayChecked(s: Sys, i: nat, health: Health)
    requires ToldAt(s, i, Begun()) && s.tasks[i].pc.AwaitHealth?
    ensures ToldAt(AfterHealth(s, i, health), i, Begun() + [Checked(health)])
  {
    hide EventsOf;
    hide ArtifactsOf;
    hide Failure;
    hide Uncaught;
    hide Guarded;
    hide Queue.Enqueue;
    BegunReads();
    StoryAppended(Begun(), Checked(health));
  }

  lemma SayOpened(s: Sys, i: nat, ok: bool)
    requires ToldAt(s, i, Ready()) && s.tasks[i].pc.AwaitCreateSession?
    ensures ToldAt(AfterSession(s, i, ok), i, Ready() + [Opened(ok)])
  {
    hide EventsOf;
    hide ArtifactsOf;
    hide Failure;
    hide Uncaught;
    hide Guarded;
    hide Queue.Enqueue;
    ReadyReads();
    OpeningReads();
    StoryAppended(Ready(), Opened(ok));
    assert Ready() + [Opened(true)] == Opening();
  }

  // Once the stream is open no note changes what the story says of the session.
  lemma SessionAppended(task: Task, story: seq<Heard>, note: Heard)
    requires SessionTold(task, story) && Started() <= story
    ensures SessionTold(task, story + [note]) && Started() <= story + [note] && Opening() <= story + [note]
  {
    PathAppended(story, note);
  }

  function Streamed1(run: Run, step: StreamStep): Run {
    match step
    case Yields(e) => Record(run, e)
    case Ends => run
    case Throws => Failed(run, FromAdapter)
  }

  lemma RunStreamed(run: Run, story: seq<Heard>, step: StreamStep)
    requires RunTold(run, story) && Smooth(story)
    ensures RunTold(Streamed1(run, step), story + [Streamed(step)])
  {
    hide EventsOf;
    hide ArtifactsOf;
    hide Failure;
    hide Uncaught;
    hide Guarded;
    StoryAppended(story, Streamed(step));
    PathAppended(story, Streamed(step));
    if step.Yields? {
      RecordNames(run, step.event);
    }
    hide LastTerminal;
  }

  lemma PlaceStreamed(story: seq<Heard>, step: StreamStep)
    requires Smooth(story) && Started() <= story
    ensures var all := story + [Streamed(step)];
      match step
      case Yields(_) => Smooth(all) && Started() <= all && Guarded(all) && all[|all| - 1] != Opened(true)
      case Ends => Smooth(all) && Started() <= all && !Guarded(all) && Streamed(Ends) in all
      case Throws => Failure(all).Some? && !Uncaught(all) && !Guarded(all)
  {
    hide EventsOf;
    hide ArtifactsOf;
    hide Failure;
    hide Uncaught;
    hide Guarded;
    StoryAppended(story, Streamed(step));
    PathAppended(story, Streamed(step));
  }

  lemma SayStreamed(s: Sys, i: nat, step: StreamStep, story: seq<Heard>)
    requires ToldAt(s, i, story) && s.tasks[i].pc.AwaitNext?
    ensures ToldAt(AfterStream(s, i, step), i, story + [Streamed(step)])
  {
    hide RunTold;
    hide SessionTold;
    hide Smooth;
    hide Guarded;
    hide Failure;
    hide Uncaught;
    hide Record;
    hide Queue.Enqueue;
    PlaceStreamed(story, step);
    SessionAppended(s.tasks[i], story, Streamed(step));
    RunStreamed(s.job.runs[i], story, step);
    SessionOnly(s.tasks[i], story + [Streamed(step)]);
  }

  // What is told of the session does not depend on where the frame stands.
  lemma SessionOnly(task: Task, story: seq<Heard>)
    ensures forall pc :: SessionTold(task, story) ==> SessionTold(task.(pc := pc), story)
  {
  }

  // An event that names an outcome is the last such event.
  lemma RecordNames(run: Run, e: Events.EventType)
    ensures LastTerminal(run.events + [e]) ==
      if TerminalToState(e).Some? then TerminalToState(e) else LastTerminal(run.events)
  {
    assert (run.events + [e])[..|run.events|] == run.events;
  }

  lemma SayIteratorClosed(s: Sys, i: nat, story: seq<Heard>)
    requires ToldAt(s, i, story) && s.tasks[i].pc.AwaitReturn?
    ensures ToldAt(Catch(s, i, FromDisk), i, story + [IteratorClosed])
  {
    hide EventsOf;
    hide ArtifactsOf;
    hide Failure;
    hide Uncaught;
    hide Guarded;
    hide Queue.Enqueue;
    StoryAppended(story, IteratorClosed);
    PathAppended(story, IteratorClosed);
  }

  // A stream is taken for one without an outcome exactly when no event named one.
  lemma OpenEnded(run: Run)
    requires Streaming(run)
    ensures EndsOpen(run) <==> LastTerminal(run.events).None?
  {
    LastTerminalIsTerminal(run.events);
  }

  lemma SayFinally(s: Sys, i: nat, story: seq<Heard>, rethrow: bool)
    requires InRange(s, i) && RunTold(s.job.runs[i], story) && SessionTold(s.tasks[i], story)
    requires Over(story) && (rethrow <==> Uncaught(story)) && !Guarded(story)
    ensures ToldAt(Finally(s, i, rethrow), i, story)
  {
    hide EventsOf;
    hide ArtifactsOf;
    hide Failure;
    hide Uncaught;
    hide Guarded;
    hide Over;
    hide StateTold;
    hide Queue.Enqueue;
  }

  lemma RunCollected(run: Run, story: seq<Heard>, artifact: ArtifactStep)
    requires RunTold(run, story) && Smooth(story)
    ensures artifact.Artifact? ==> RunTold(Collect(run, artifact.id), story + [Collected(artifact)])
    ensures artifact.CollectThrows? ==> RunTold(Failed(run, FromAdapter), story + [Collected(artifact)])
    ensures artifact.NoMore? ==>
      RunTold(if EndsOpen(run) then Failed(run, ProtocolMismatch) else run, story + [Collected(artifact)])
    ensures artifact.NoMore? ==> (EndsOpen(run) <==> LastTerminal(EventsOf(story)).None?)
  {
    hide EventsOf;
    hide ArtifactsOf;
    hide Failure;
    hide Uncaught;
    hide Guarded;
    StoryAppended(story, Collected(artifact));
    PathAppended(story, Collected(artifact));
    OpenEnded(run);
    hide EndsOpen;
    hide LastTerminal;
  }

  lemma PlaceCollected(story: seq<Heard>, artifact: ArtifactStep)
    requires Smooth(story) && Started() <= story && Streamed(Ends) in story
    ensures var all := story + [Collected(artifact)];
      && !Uncaught(all) && !Guarded(all)
      && match artifact
         case Artifact(_) => Smooth(all) && Started() <= all && Streamed(Ends) in all
         case CollectThrows => Failure(all).Some?
         case NoMore => Over(all) && (LastTerminal(EventsOf(story)).None? ==> Failure(all).Some?)
  {
    hide EventsOf;
    hide ArtifactsOf;
    hide Failure;
    hide Uncaught;
    hide Guarded;
    StoryAppended(story, Collected(artifact));
    PathAppended(story, Collected(artifact));
    hide LastTerminal;
  }

  lemma SayCollected(s: Sys, i: nat, artifact: ArtifactStep, story: seq<Heard>)
    requires ToldAt(s, i, story) && s.tasks[i].pc.AwaitArtifacts?
    ensures ToldAt(AfterArtifact(s, i, artifact), i, story + [Collected(artifact)])
  {
    hide RunTold;
    hide SessionTold;
    hide Smooth;
    hide Over;
    hide EventsOf;
    hide ArtifactsOf;
    hide Failure;
    hide Uncaught;
    hide Guarded;
    hide LastTerminal;
    hide EndsOpen;
    hide Collect;
    hide Finally;
    hide Queue.Enqueue;
    var all := story + [Collected(artifact)];
    PlaceCollected(story, artifact);
    SessionAppended(s.tasks[i], story, Collected(artifact));
    RunCollected(s.job.runs[i], story, artifact);
    SessionOnly(s.tasks[i], all);
    if artifact.NoMore? && !EndsOpen(s.job.runs[i]) {
      SayFinally(s, i, all, false);
    }
  }

  // The last notes change nothing of what is told.
  lemma InertTold(run: Run, task: Task, story: seq<Heard>, note: Heard)
    requires (note.Written? || note.SessionClosed?) && Blame(story, note).None?
    requires note == Written(true) ==> story != Opening()
    ensures RunTold(run, story) ==> RunTold(run, story + [note])
    ensures SessionTold(task, story) ==> SessionTold(task, story + [note])
    ensures Over(story) ==> Over(story + [note])
    ensures Opening() <= story + [note] ==> Opening() <= story
  {
    hide EventsOf;
    hide ArtifactsOf;
    hide Failure;
    hide Uncaught;
    hide Guarded;
    StoryAppended(story, note);
    PathAppended(story, note);
    hide LastTerminal;
  }

  lemma SaySessionClosed(s: Sys, i: nat, story: seq<Heard>)
    requires ToldAt(s, i, story) && s.tasks[i].pc.AwaitClose?
    ensures ToldAt(FinalPersist(s, i, s.tasks[i].pc.rethrow), i, story + [SessionClosed])
  {
    hide EventsOf;
    hide ArtifactsOf;
    hide Failure;
    hide Uncaught;
    hide Guarded;
    hide Queue.Enqueue;
    StoryAppended(story, SessionClosed);
    PathAppended(story, SessionClosed);
  }

  // A write outside the try block: the frame goes on, or throws.
  lemma SayWrittenEarly(s: Sys, i: nat, op: nat, story: seq<Heard>)
    requires ToldAt(s, i, story) && Back(s, op)
    requires var pc := s.tasks[i].pc; pc == AwaitCancelPersist(op) || pc == AwaitFailPersist(op)
    ensures ToldAt(AfterPersist(s, i), i, story + [Written(Saved(s, op))])
  {
    hide EventsOf;
    hide ArtifactsOf;
    hide Failure;
    hide Uncaught;
    hide Guarded;
    BegunReads();
    StoryAppended([], Claimed(false, false));
    assert [] + [Claimed(false, false)] == [Claimed(false, false)];
    StoryAppended(Begun(), Checked(Unhealthy));
    StoryAppended(story, Written(Saved(s, op)));
    PathAppended(story, Written(Saved(s, op)));
    SayCancelled(story);
  }

  // A story of one claim that found the job cancelled.
  lemma SayCancelled(story: seq<Heard>)
    requires story != [] ==> |story| >= 1
    ensures |story| == 1 && story[0].Claimed? && story[0].cancelled ==>
      Failure(story).None? && !Uncaught(story) && !Guarded(story) && EventsOf(story) == [] && ArtifactsOf(story) == []
  {
    if |story| == 1 && story[0].Claimed? {
      assert [] + [story[0]] == story;
      BegunReads();
      StoryAppended([], story[0]);
    }
  }

  lemma SayWrittenStarting(s: Sys, i: nat, op: nat)
    requires ToldAt(s, i, Begun() + [Checked(Healthy)]) && s.tasks[i].pc == AwaitStartingPersist(op) && Back(s, op)
    ensures ToldAt(AfterPersist(s, i), i, Begun() + [Checked(Healthy)] + [Written(Saved(s, op))])
  {
    hide EventsOf;
    hide ArtifactsOf;
    hide Failure;
    hide Uncaught;
    hide Guarded;
    ReadyReads();
    var story := Begun() + [Checked(Healthy)];
    StoryAppended(story, Written(Saved(s, op)));
    PathAppended(story, Written(Saved(s, op)));
    assert story + [Written(true)] == Ready();
  }

  lemma SayWrittenRunning(s: Sys, i: nat, op: nat)
    requires ToldAt(s, i, Opening()) && s.tasks[i].pc == AwaitRunningPersist(op) && Back(s, op)
    ensures ToldAt(AfterPersist(s, i), i, Opening() + [Written(Saved(s, op))])
  {
    hide EventsOf;
    hide ArtifactsOf;
    hide Failure;
    hide Uncaught;
    hide Guarded;
    hide Queue.Enqueue;
    OpeningReads();
    StoryAppended(Opening(), Written(Saved(s, op)));
    PathAppended(Opening(), Written(Saved(s, op)));
    assert Opening() + [Written(true)] == Started();
    assert Opening()[3] == Opened(true);
  }

  lemma SayWrittenEvent(s: Sys, i: nat, op: nat, story: seq<Heard>)
    requires ToldAt(s, i, story) && s.tasks[i].pc == AwaitEventPersist(op) && Back(s, op)
    ensures ToldAt(AfterPersist(s, i), i, story + [Written(Saved(s, op))])
  {
    hide EventsOf;
    hide ArtifactsOf;
    hide Failure;
    hide Uncaught;
    hide Guarded;
    OpeningReads();
    StoryAppended(story, Written(Saved(s, op)));
    PathAppended(story, Written(Saved(s, op)));
  }

  lemma SayWrittenCatch(s: Sys, i: nat, op: nat, story: seq<Heard>)
    requires ToldAt(s, i, story) && s.tasks[i].pc == AwaitCatchPersist(op) && Back(s, op)
    ensures ToldAt(AfterPersist(s, i), i, story + [Written(Saved(s, op))])
  {
    hide EventsOf;
    hide ArtifactsOf;
    hide Failure;
    hide Uncaught;
    hide Guarded;
    hide Finally;
    var note := Written(Saved(s, op));
    OpeningReads();
    StoryAppended(story, note);
    PathAppended(story, note);
    SayFinally(s, i, story + [note], !Saved(s, op));
  }

  lemma PlaceFinal(story: seq<Heard>, rethrow: bool, ok: bool)
    requires Over(story) && (rethrow <==> Uncaught(story)) && !Guarded(story)
    ensures var all := story + [Written(ok)];
      && Over(all) && (Uncaught(all) <==> rethrow || !ok)
      && Blame(story, Written(ok)).None? && story != Opening()
  {
    hide EventsOf;
    hide ArtifactsOf;
    hide Failure;
    hide Uncaught;
    OpeningReads();
    StoryAppended(story, Written(ok));
    PathAppended(story, Written(ok));
    hide LastTerminal;
  }

  lemma SayWrittenFinal(s: Sys, i: nat, op: nat, rethrow: bool, story: seq<Heard>)
    requires ToldAt(s, i, story) && s.tasks[i].pc == AwaitFinalPersist(op, rethrow) && Back(s, op)
    ensures ToldAt(AfterPersist(s, i), i, story + [Written(Saved(s, op))])
  {
    hide RunTold;
    hide SessionTold;
    hide Over;
    hide Guarded;
    hide EventsOf;
    hide ArtifactsOf;
    hide Failure;
    hide Uncaught;
    PlaceFinal(story, rethrow, Saved(s, op));
    InertTold(s.job.runs[i], s.tasks[i], story, Written(Saved(s, op)));
    SessionOnly(s.tasks[i], story + [Written(Saved(s, op))]);
  }

  lemma SayWritten(s: Sys, i: nat, story: seq<Heard>)
    requires ToldAt(s, i, story) && AwaitedWrite(s.tasks[i].pc).Some? && Back(s, AwaitedWrite(s.tasks[i].pc).value)
    ensures ToldAt(AfterPersist(s, i), i, story + [Written(Saved(s, AwaitedWrite(s.tasks[i].pc).value))])
  {
    hide AfterPersist;
    hide Told;
    assert PlaceTold(s.tasks[i].pc, story) by { PlaceOf(s.job.runs[i], s.tasks[i], story); }
    match s.tasks[i].pc {
      case AwaitCancelPersist(op) => SayWrittenEarly(s, i, op, story);
      case AwaitFailPersist(op) => SayWrittenEarly(s, i, op, story);
      case AwaitStartingPersist(op) => SayWrittenStarting(s, i, op);
      case AwaitRunningPersist(op) => SayWrittenRunning(s, i, op);
      case AwaitEventPersist(op) => SayWrittenEvent(s, i, op, story);
      case AwaitCatchPersist(op) => SayWrittenCatch(s, i, op, story);
      case AwaitFinalPersist(op, rethrow) => SayWrittenFinal(s, i, op, rethrow, story);
    }
  }

  lemma PlaceOf(run: Run, task: Task, story: seq<Heard>)
    requires Told(run, task, story)
    ensures PlaceTold(task.pc, story)
  {
    hide PlaceTold;
  }

  // A step that resumes the frame of run `i`.
  lemma OwnTold(s: Sys, a: Action, i: nat, story: seq<Heard>)
    requires ToldAt(s, i, story) && Resumed(a) == Some(i)
    ensures ToldAt(Next(s, a), i, story + Hears(s, a, i))
  {
    hide AfterPersist;
    hide AfterHealth;
    hide AfterSession;
    hide AfterStream;
    hide AfterArtifact;
    hide Catch;
    hide FinalPersist;
    hide Told;
    PlaceOf(s.job.runs[i], s.tasks[i], story);
    assert story + [] == story;
    match a {
      case PersistReturns(_) =>
        var op := AwaitedWrite(s.tasks[i].pc);
        if op.Some? && Back(s, op.value) { SayWritten(s, i, story); } else { PersistWaits(s, i); }
      case HealthReturns(_, health) => if s.tasks[i].pc.AwaitHealth? { SayChecked(s, i, health); }
      case SessionReturns(_, ok) => if s.tasks[i].pc.AwaitCreateSession? { SayOpened(s, i, ok); }
      case StreamReturns(_, step) => if s.tasks[i].pc.AwaitNext? { SayStreamed(s, i, step, story); }
      case IteratorReturns(_) => if s.tasks[i].pc.AwaitReturn? { SayIteratorClosed(s, i, story); }
      case ArtifactReturns(_, artifact) => if s.tasks[i].pc.AwaitArtifacts? { SayCollected(s, i, artifact, story); }
      case CloseReturns(_) => if s.tasks[i].pc.AwaitClose? { SaySessionClosed(s, i, story); }
    }
  }

  lemma PersistWaits(s: Sys, i: nat)
    requires InRange(s, i)
    requires var op := AwaitedWrite(s.tasks[i].pc); op.None? || !Back(s, op.value)
    ensures AfterPersist(s, i) == s
  {
  }

  // ----- The steps of others -----

  predicate SameSession(a: Option<Session>, b: Option<Session>) {
    if a.Some? then b.Some? && b.value.starts == a.value.starts && b.value.closes == a.value.closes else b.None?
  }

  // What a step that is not about run `i` may do to it: mark it CANCELLED while it has no session.
  predicate Aside(s: Sys, t: Sys, i: nat) {
    && InRange(s, i) && InRange(t, i)
    && t.tasks[i].pc == s.tasks[i].pc && t.tasks[i].healthChecks == s.tasks[i].healthChecks
    && SameSession(s.tasks[i].session, t.tasks[i].session)
    && var r, q := s.job.runs[i], t.job.runs[i];
      && q.events == r.events && q.artifacts == r.artifacts && q.error == r.error
      && (q.state == r.state || (q.state == CANCELLED && !Terminal(r.state) && i !in s.active))
  }

  lemma SweepAside(s: Sys, from: nat, i: nat)
    requires InRange(s, i)
    ensures Aside(s, Sweep(s, from).0, i)
  {
    hide Queue.Enqueue;
    var stop := SweepStop(s.job.runs, s.active, from);
    SweepStops(s.job.runs, s.active, from);
    hide SweepStop;
  }

  lemma AsideOn(s: Sys, t: Sys, u: Sys, i: nat)
    requires Aside(s, t, i) && Aside(t, u, i) && t.active == s.active
    ensures Aside(s, u, i)
  {
  }

  lemma JobCancelAside(s: Sys, i: nat)
    requires InRange(s, i)
    ensures Aside(s, StartCancelJob(s), i)
  {
    var t := s.(job := s.job.(cancelRequested := true));
    SweepAside(t, 0, i);
    AsideOn(s, t, Sweep(t, 0).0, i);
    hide Sweep;
  }

  lemma RunCancelAside(s: Sys, k: nat, i: nat)
    requires InRange(s, i)
    ensures Aside(s, StartCancelRun(s, k), i)
  {
  }

  lemma NoteAside(s: Sys, k: nat, threw: bool, i: nat)
    requires InRange(s, i) && k < |s.job.runs|
    ensures Aside(s, NoteError(s, k, threw), i) && NoteError(s, k, threw).active == s.active
  {
  }

  lemma AnswerAside(s: Sys, c: nat, threw: bool, i: nat)
    requires InRange(s, i)
    ensures Aside(s, AfterCancel(s, c, threw), i)
  {
    hide Sweep;
    hide NoteError;
    hide Queue.Enqueue;
    if c < |s.cancels| && s.cancels[c].JobAwaitAdapter? && s.cancels[c].run < |s.job.runs| {
      var k := s.cancels[c].run;
      var t := NoteError(s, k, threw);
      NoteAside(s, k, threw, i);
      SweepAside(t, k + 1, i);
      AsideOn(s, t, Sweep(t, k + 1).0, i);
    }
  }

  lemma ClientAside(s: Sys, a: Action, i: nat)
    requires InRange(s, i) && (a.CancelJob? || a.CancelRun? || a.CancelReturns?)
    ensures Aside(s, Next(s, a), i)
  {
    hide StartCancelJob;
    hide StartCancelRun;
    hide AfterCancel;
    hide Aside;
    match a {
      case CancelJob => JobCancelAside(s, i);
      case CancelRun(k) => RunCancelAside(s, k, i);
      case CancelReturns(c, threw) => AnswerAside(s, c, threw, i);
    }
  }

  lemma BackgroundAside(s: Sys, a: Action, i: nat)
    requires InRange(s, i) && Background(a)
    ensures Aside(s, Next(s, a), i)
  {
    hide Verdict;
    hide Queue.Enqueue;
    hide Queue.Advance;
    hide Queue.Release;
  }

  lemma ResumedAside(s: Sys, a: Action, i: nat)
    requires InRange(s, i) && Resumed(a).Some? && Resumed(a) != Some(i)
    ensures Aside(s, Next(s, a), i)
  {
    Elsewhere(s, a, i);
    hide Next;
  }

  // What is told of a run survives the steps of others: a mark only meets a run without a session.
  lemma AsideTold(s: Sys, t: Sys, i: nat, story: seq<Heard>)
    requires ToldAt(s, i, story) && Aside(s, t, i) && TaskOk(s.job.runs[i], s.tasks[i], i in s.active)
    ensures ToldAt(t, i, story)
  {
    LastTerminalIsTerminal(EventsOf(story));
    hide EventsOf;
    hide ArtifactsOf;
    hide Failure;
    hide Uncaught;
    hide Guarded;
    hide LastTerminal;
  }

  lemma ClaimTold(s: Sys, p: Pool.Pool, i: nat, enabled: bool, story: seq<Heard>)
    requires ToldAt(s, i, story) && s.tasks[i].pc.Unclaimed?
    ensures var t := Begin(s.(pool := p), i, enabled);
      ToldAt(t, i, story + [Claimed(s.job.cancelRequested, enabled)]) && !t.tasks[i].pc.Unclaimed?
  {
    assert story == [] && s.tasks[i].healthChecks == 0;
    assert story + [Claimed(s.job.cancelRequested, enabled)] == [Claimed(s.job.cancelRequested, enabled)];
    hide RunTold;
    hide SessionTold;
    SayClaimed(s.(pool := p), i, enabled);
    hide Begin;
  }

  // A worker's step claims run `i`, or leaves it as it is.
  lemma WorkerTold(s: Sys, w: nat, enabled: bool, i: nat, story: seq<Heard>)
    requires Inv(s) && ToldAt(s, i, story)
    ensures ToldAt(Next(s, WorkerResumes(w, enabled)), i, story + Hears(s, WorkerResumes(w, enabled), i))
  {
    hide Inv;
    hide Told;
    WorkerClaims(s, w, enabled);
    var t := StepWorker(s, w, enabled);
    hide StepWorker;
    assert story + [] == story;
    if t != s.(pool := t.pool) {
      if s.pool.next == i {
        ClaimTold(s, t.pool, i, enabled, story);
      } else {
        BeginTouches(s.(pool := t.pool), s.pool.next, enabled);
      }
    }
    hide Begin;
  }

  lemma OtherTold(s: Sys, a: Action, i: nat, story: seq<Heard>)
    requires Inv(s) && ToldAt(s, i, story) && !a.Restart? && !a.WorkerResumes? && Resumed(a) != Some(i)
    ensures ToldAt(Next(s, a), i, story) && Hears(s, a, i) == []
  {
    hide Inv;
    hide Told;
    hide Aside;
    TaskAt(s, i);
    if a.CancelJob? || a.CancelRun? || a.CancelReturns? {
      ClientAside(s, a, i);
    } else if Background(a) {
      BackgroundAside(s, a, i);
    } else {
      ResumedAside(s, a, i);
    }
    hide Next;
    hide TaskOk;
    AsideTold(s, Next(s, a), i, story);
  }

  lemma StepTold(s: Sys, a: Action, i: nat, story: seq<Heard>)
    requires Inv(s) && ToldAt(s, i, story) && !a.Restart?
    ensures ToldAt(Next(s, a), i, story + Hears(s, a, i))
  {
    hide Inv;
    hide ToldAt;
    hide Next;
    if a.WorkerResumes? {
      WorkerTold(s, a.w, a.enabled, i, story);
    } else if Resumed(a) == Some(i) {
      OwnTold(s, a, i, story);
    } else {
      OtherTold(s, a, i, story);
      assert story + [] == story;
    }
  }

  // A process that was restarted from the disk has no stories: its frames are gone.
  predicate ToldUnlessReloaded(s: Sys, i: nat, story: seq<Heard>) {
    s.executor.Reloaded? || ToldAt(s, i, story)
  }

  lemma ReloadedStays(s: Sys, a: Action)
    requires s.executor.Reloaded? || (a.Restart? && s.queue.disk.Some?)
    ensures Next(s, a).executor.Reloaded?
  {
    if a.Restart? {
      hide Repair;
      hide NeedsRepair;
    } else if !Background(a) {
      OuterFrame(s, a);
      hide Next;
    }
  }

  lemma {:induction false} ExecStory(s: Sys, actions: seq<Action>, i: nat, story: seq<Heard>)
    requires Inv(s) && ToldUnlessReloaded(s, i, story)
    ensures Inv(Exec(s, actions)) && ToldUnlessReloaded(Exec(s, actions), i, story + Story(s, actions, i))
    decreases |actions|
  {
    hide Inv;
    hide ToldAt;
    hide Hears;
    if actions == [] {
      assert story + [] == story;
    } else {
      var a := actions[0];
      NextInv(s, a);
      if s.executor.Reloaded? || (a.Restart? && s.queue.disk.Some?) {
        ReloadedStays(s, a);
      } else if a.Restart? {
        RestartHeard(s, i);
        assert story + [] == story;
      } else {
        StepTold(s, a, i, story);
      }
      hide Next;
      ExecStory(Next(s, a), actions[1..], i, story + Hears(s, a, i));
      assert story + Hears(s, a, i) + Story(Next(s, a), actions[1..], i) == story + Story(s, actions, i);
    }
  }

  // Without a file a restart finds nothing.
  lemma RestartHeard(s: Sys, i: nat)
    requires s.queue.disk.None?
    ensures Next(s, Restart) == s && Hears(s, Restart, i) == []
  {
  }

  // ----- The theorems -----

  // For every schedule and every run: what it shows and what its adapter saw is what its story
  // says, and so is where its frame stands.
  lemma RunFollowsStory(n: nat, limit: int, actions: seq<Action>, i: nat)
    requires n >= 1 && limit >= 1 && i < n
    ensures var s := Exec(Init(n, limit), actions);
      s.executor.Reloaded? || ToldAt(s, i, Story(Init(n, limit), actions, i))
  {
    InitInv(n, limit);
    InitStory(n, limit, i);
    hide Inv;
    hide ToldAt;
    ExecStory(Init(n, limit), actions, i, []);
    assert [] + Story(Init(n, limit), actions, i) == Story(Init(n, limit), actions, i);
  }

  lemma InitStory(n: nat, limit: int, i: nat)
    requires i < n
    ensures ToldAt(Init(n, limit), i, [])
  {
  }

  lemma {:induction false} StoryConcat(s: Sys, a: seq<Action>, b: seq<Action>, i: nat)
    ensures Story(s, a + b, i) == Story(s, a, i) + Story(Exec(s, a), b, i)
    decreases |a|
  {
    hide Hears;
    hide Next;
    if a == [] {
      assert a + b == b;
    } else {
      assert (a + b)[0] == a[0] && (a + b)[1..] == a[1..] + b;
      StoryConcat(Next(s, a[0]), a[1..], b, i);
    }
  }

  // ----- What follows for one run -----

  lemma {:induction false} FailureKept(story: seq<Heard>, more: seq<Heard>)
    requires Failure(story).Some?
    ensures Failure(story + more) == Failure(story)
    decreases |more|
  {
    if more == [] {
      assert story + more == story;
    } else {
      var init, last := more[..|more| - 1], more[|more| - 1];
      FailureKept(story, init);
      assert story + more == (story + init) + [last];
      StoryAppended(story + init, last);
      hide Failure;
    }
  }

  // A frame in flight belongs to a process that was not restarted.
  lemma InFlightTold(n: nat, limit: int, actions: seq<Action>, i: nat)
    requires n >= 1 && limit >= 1 && i < n
    requires var s := Exec(Init(n, limit), actions); i < |s.tasks| && !s.tasks[i].pc.Done?
    ensures ToldAt(Exec(Init(n, limit), actions), i, Story(Init(n, limit), actions, i))
  {
    Reachable(n, limit, actions);
    ExecutorAt(Exec(Init(n, limit), actions));
    hide Inv;
    hide ToldAt;
    RunFollowsStory(n, limit, actions, i);
    hide Exec;
  }

  // What a run shows that failed before it had a session.
  predicate Refused(s: Sys, i: nat) {
    && InRange(s, i) && s.job.runs[i].state == FAILED && s.job.runs[i].error == Some(AdapterUnhealthy)
    && s.tasks[i].session.None?
  }

  lemma RefusedStory(s: Sys, i: nat, story: seq<Heard>)
    requires ToldAt(s, i, story) && Failure(story) == Some(AdapterUnhealthy) && !(Opening() <= story)
    ensures Refused(s, i)
  {
    hide EventsOf;
    hide ArtifactsOf;
    hide Failure;
    hide PlaceTold;
  }

  // The story of a schedule that goes on.
  lemma StoryGoesOn(s: Sys, before: seq<Action>, a: Action, after: seq<Action>, i: nat)
    ensures Exec(s, before + ([a] + after)) == Exec(Next(Exec(s, before), a), after)
    ensures Story(s, before + ([a] + after), i) ==
      Story(s, before, i) + (Hears(Exec(s, before), a, i) + Story(Next(Exec(s, before), a), after, i))
  {
    hide Next;
    hide Hears;
    ExecConcat(s, before, [a] + after);
    StoryConcat(s, before, [a] + after, i);
    assert ([a] + after)[0] == a && ([a] + after)[1..] == after;
  }

  lemma RefusedAfter(t: Sys, i: nat, story: seq<Heard>, checks: nat)
    requires t.executor.Reloaded? || ToldAt(t, i, story)
    requires Failure(story) == Some(AdapterUnhealthy) && !(Opening() <= story)
    requires checks == if Begun() <= story then 1 else 0
    ensures t.executor.Reloaded? || (Refused(t, i) && t.tasks[i].healthChecks == checks)
  {
    if !t.executor.Reloaded? {
      RefusedStory(t, i, story);
    }
    hide EventsOf;
    hide ArtifactsOf;
    hide Failure;
    hide PlaceTold;
    hide RunTold;
  }

  // Once a story holds that error and has left the path to a session, both stay.
  lemma RefusedFrom(
    n: nat, limit: int, before: seq<Action>, a: Action, after: seq<Action>, i: nat, heard: seq<Heard>, k: nat)
    requires n >= 1 && limit >= 1 && i < n
    requires Story(Init(n, limit), before, i) + Hears(Exec(Init(n, limit), before), a, i) == heard
    requires Failure(heard) == Some(AdapterUnhealthy) && k < |heard| && k < 4 && heard[k] != Opening()[k]
    ensures var t := Exec(Next(Exec(Init(n, limit), before), a), after);
      t.executor.Reloaded? || (Refused(t, i) && t.tasks[i].healthChecks == if heard[0] == Begun()[0] then 1 else 0)
  {
    hide Exec;
    hide Next;
    hide Story;
    hide Hears;
    hide Failure;
    hide ToldAt;
    var start := Init(n, limit);
    hide Init;
    var t := Next(Exec(start, before), a);
    var all := heard + Story(t, after, i);
    StoryGoesOn(start, before, a, after, i);
    assert Story(start, before + ([a] + after), i) == all;
    FailureKept(heard, Story(t, after, i));
    assert all[k] == heard[k] && all[0] == heard[0];
    OffPath(Opening(), all, k);
    assert Begun() <= all <==> heard[0] == Begun()[0];
    RunFollowsStory(n, limit, before + ([a] + after), i);
    RefusedAfter(Exec(t, after), i, all, if heard[0] == Begun()[0] then 1 else 0);
  }

  lemma PlaceAt(s: Sys, i: nat, story: seq<Heard>)
    requires ToldAt(s, i, story)
    ensures InRange(s, i) && PlaceTold(s.tasks[i].pc, story)
  {
    hide RunTold;
    hide SessionTold;
    hide PlaceTold;
  }

  // An adapter whose preflight answers unhealthy: whatever happens afterwards while the process
  // lives, the run is FAILED with that error, and createSession is never called.
  lemma UnhealthyRunIsRefused(n: nat, limit: int, before: seq<Action>, after: seq<Action>, i: nat)
    requires n >= 1 && limit >= 1 && i < n && Awaits(Exec(Init(n, limit), before), i, AwaitHealth)
    ensures var t := Exec(Next(Exec(Init(n, limit), before), HealthReturns(i, Unhealthy)), after);
      t.executor.Reloaded? || (Refused(t, i) && t.tasks[i].healthChecks == 1)
  {
    hide Exec;
    hide Next;
    hide Story;
    hide ToldAt;
    InFlightTold(n, limit, before, i);
    PlaceAt(Exec(Init(n, limit), before), i, Story(Init(n, limit), before, i));
    UnhealthyReads();
    RefusedFrom(n, limit, before, HealthReturns(i, Unhealthy), after, i, Begun() + [Checked(Unhealthy)], 1);
    hide Failure;
  }

  lemma UnhealthyReads()
    ensures Failure(Begun() + [Checked(Unhealthy)]) == Some(AdapterUnhealthy)
    ensures Failure([Claimed(false, false)]) == Some(AdapterUnhealthy)
  {
    hide Failure;
    BegunReads();
    StoryAppended(Begun(), Checked(Unhealthy));
    StoryAppended([], Claimed(false, false));
    assert [] + [Claimed(false, false)] == [Claimed(false, false)];
  }

  // A run of a disabled adapter, claimed while nobody had cancelled the job: the same, without a
  // health check.
  lemma DisabledRunIsRefused(n: nat, limit: int, before: seq<Action>, w: nat, after: seq<Action>, i: nat)
    requires n >= 1 && limit >= 1 && i < n
    requires var s := Exec(Init(n, limit), before);
      && !s.job.cancelRequested && i < |s.tasks| && s.tasks[i].pc.Unclaimed?
      && var t := Next(s, WorkerResumes(w, false)); InRange(t, i) && !t.tasks[i].pc.Unclaimed?
    ensures var t := Exec(Next(Exec(Init(n, limit), before), WorkerResumes(w, false)), after);
      t.executor.Reloaded? || (Refused(t, i) && t.tasks[i].healthChecks == 0)
  {
    hide Exec;
    hide Next;
    hide Story;
    hide ToldAt;
    InFlightTold(n, limit, before, i);
    PlaceAt(Exec(Init(n, limit), before), i, Story(Init(n, limit), before, i));
    UnhealthyReads();
    assert [] + [Claimed(false, false)] == [Claimed(false, false)];
    RefusedFrom(n, limit, before, WorkerResumes(w, false), after, i, [Claimed(false, false)], 0);
    hide Failure;
  }

  // Only a run whose health check answered healthy, and whose STARTING was saved, has a session.
  lemma SessionNeedsHealth(n: nat, limit: int, actions: seq<Action>, i: nat)
    requires n >= 1 && limit >= 1 && i < n
    requires var s := Exec(Init(n, limit), actions);
      !s.executor.Reloaded? && i < |s.tasks| && s.tasks[i].session.Some?
    ensures Opening() <= Story(Init(n, limit), actions, i)
  {
    RunFollowsStory(n, limit, actions, i);
    hide Exec;
    hide Story;
    hide RunTold;
    hide PlaceTold;
  }

  lemma {:induction false} ArtifactsRead(story: seq<Heard>)
    ensures forall id :: id in ArtifactsOf(story) <==> Collected(Artifact(id)) in story
    ensures forall j, k :: 0 <= j < k < |ArtifactsOf(story)| ==> ArtifactsOf(story)[j] != ArtifactsOf(story)[k]
  {
    if story != [] {
      var init, last := story[..|story| - 1], story[|story| - 1];
      ArtifactsRead(init);
      assert story == init + [last];
    }
  }

  // A run holds an artifact exactly if its adapter delivered it, once each.
  lemma ArtifactsAreKept(n: nat, limit: int, actions: seq<Action>, i: nat)
    requires n >= 1 && limit >= 1 && i < n && !Exec(Init(n, limit), actions).executor.Reloaded?
    ensures var s := Exec(Init(n, limit), actions);
      && i < |s.job.runs|
      && var kept := s.job.runs[i].artifacts;
        && (forall id :: id in kept <==> Collected(Artifact(id)) in Story(Init(n, limit), actions, i))
        && (forall j, k :: 0 <= j < k < |kept| ==> kept[j] != kept[k])
  {
    RunFollowsStory(n, limit, actions, i);
    ArtifactsRead(Story(Init(n, limit), actions, i));
    hide Exec;
    hide Story;
    hide ArtifactsOf;
    hide SessionTold;
    hide PlaceTold;
  }

  // The outcome of a run whose frame is gone, from its story alone: the first error; or CANCELLED,
  // if the job was cancelled when it was claimed; or what the last outcome event named, with the
  // stream and the artifacts read to their end.  The frame threw exactly if something threw that
  // nothing catches.
  lemma RunOutcome(n: nat, limit: int, actions: seq<Action>, i: nat)
    requires n >= 1 && limit >= 1 && i < n
    requires var s := Exec(Init(n, limit), actions);
      !s.executor.Reloaded? && i < |s.tasks| && Finished(s.tasks[i].pc)
    ensures var s, story := Exec(Init(n, limit), actions), Story(Init(n, limit), actions, i);
      && i < |s.job.runs|
      && var run := s.job.runs[i];
        && run.events == EventsOf(story) && run.artifacts == ArtifactsOf(story) && run.error == Failure(story)
        && (s.tasks[i].pc.Threw? <==> Uncaught(story))
        && (Failure(story).Some? ==> run.state == FAILED)
        && (Failure(story).None? && !Uncaught(story) ==>
             if story != [] && story[0].Claimed? && story[0].cancelled then run.state == CANCELLED
             else Completed(story) && Some(run.state) == LastTerminal(EventsOf(story)))
  {
    RunFollowsStory(n, limit, actions, i);
    OutcomeTold(Exec(Init(n, limit), actions), i, Story(Init(n, limit), actions, i));
    hide Exec;
    hide Story;
    hide ToldAt;
  }

  lemma OutcomeTold(s: Sys, i: nat, story: seq<Heard>)
    requires ToldAt(s, i, story) && Finished(s.tasks[i].pc)
    ensures var run := s.job.runs[i];
      && run.events == EventsOf(story) && run.artifacts == ArtifactsOf(story) && run.error == Failure(story)
      && (s.tasks[i].pc.Threw? <==> Uncaught(story))
      && (Failure(story).Some? ==> run.state == FAILED)
      && (Failure(story).None? && !Uncaught(story) ==>
           if story != [] && story[0].Claimed? && story[0].cancelled then run.state == CANCELLED
           else Completed(story) && Some(run.state) == LastTerminal(EventsOf(story)))
  {
    hide EventsOf;
    hide ArtifactsOf;
    hide Failure;
    hide Uncaught;
    hide LastTerminal;
    if story != [] && story[0].Claimed? && story[0].cancelled {
      OffPath(Opening(), story, 0);
    }
    if Started() <= story {
      assert Opening() == Started()[..4] && Opening() <= story;
    }
  }
}
