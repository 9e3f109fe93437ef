// The two sides together: what the gateway records of a whole adapter stream.
module AdapterContract {
  import opened Wrappers
  import Events
  import opened GatewayModel
  import ProcessModel
  import ProcessTheorems
  import MockModel
  import MockTheorems
  import LocalModel
  import LocalTheorems

  // The event loop of #executeRun over a whole stream.
  function RecordAll(run: Run, kinds: seq<Events.EventType>): Run {
    if kinds == [] then run else Record(RecordAll(run, kinds[..|kinds| - 1]), kinds[|kinds| - 1])
  }

  lemma {:induction false} RecordsStream(run: Run, kinds: seq<Events.EventType>)
    ensures RecordAll(run, kinds).events == run.events + kinds
    ensures (forall k :: 0 <= k < |kinds| ==> !Events.TerminalType(kinds[k])) ==>
      RecordAll(run, kinds).state == run.state
  {
    if kinds == [] {
      assert run.events + kinds == run.events;
    } else {
      var n := |kinds| - 1;
      RecordsStream(run, kinds[..n]);
      assert kinds == kinds[..n] + [kinds[n]];
    }
  }

  // A stream with one terminal event, at its end, settles the run in the state that event names,
  // is never taken for a stream without a terminal event, and leaves no room for a second verdict.
  lemma StreamSettlesRun(run: Run, kinds: seq<Events.EventType>)
    requires Events.EndsOnce(kinds)
    ensures var recorded := RecordAll(run, kinds);
      && recorded.events == run.events + kinds
      && Some(recorded.state) == TerminalToState(kinds[|kinds| - 1]) == LastTerminal(recorded.events)
      && !EndsOpen(recorded)
  {
    var n := |kinds| - 1;
    RecordsStream(run, kinds);
    RecordsStream(run, kinds[..n]);
    assert (run.events + kinds)[|run.events + kinds| - 1] == kinds[n];
  }

  // The gateway's record of a fully consumed process-backed stream is the reference outcome.
  lemma ProcessRunRecorded(cap: nat, binding: Events.Binding, actions: seq<ProcessModel.Action>, run: Run)
    returns (exit: nat, observed: nat)
    requires ProcessModel.Exec(ProcessModel.Init(cap, binding), actions).pc.Finished?
    ensures var s := ProcessModel.Exec(ProcessModel.Init(cap, binding), actions);
      var recorded := RecordAll(run, Events.Kinds(s.emitter));
      && exit < observed < |s.notes| && s.notes[exit].Exited? && s.notes[observed] == ProcessModel.Observed
      && Some(recorded.state) == TerminalToState(ProcessTheorems.Expected(s.notes, exit, observed, s.cap))
      && !EndsOpen(recorded)
  {
    exit, observed := ProcessTheorems.RunOutcome(cap, binding, actions);
    StreamSettlesRun(run, Events.Kinds(ProcessModel.Exec(ProcessModel.Init(cap, binding), actions).emitter));
  }

  lemma MockRunRecorded(binding: Events.Binding, actions: seq<MockModel.Action>, run: Run)
    requires MockModel.Exec(MockModel.Init(binding), actions).pc.Finished?
    ensures var s := MockModel.Exec(MockModel.Init(binding), actions);
      var recorded := RecordAll(run, Events.Kinds(s.emitter));
      && MockTheorems.Verdict(s.text, s.notes).Some?
      && Some(recorded.state) == TerminalToState(MockTheorems.Verdict(s.text, s.notes).value)
      && !EndsOpen(recorded)
  {
    MockTheorems.RunOutcome(binding, actions);
    StreamSettlesRun(run, Events.Kinds(MockModel.Exec(MockModel.Init(binding), actions).emitter));
  }

  lemma LocalRunRecorded(binding: Events.Binding, actions: seq<LocalModel.Action>, run: Run)
    requires LocalModel.Exec(LocalModel.Init(binding), actions).pc.Finished?
    ensures var s := LocalModel.Exec(LocalModel.Init(binding), actions);
      var recorded := RecordAll(run, Events.Kinds(s.emitter));
      && LocalTheorems.Verdict(s.notes).Some?
      && Some(recorded.state) == TerminalToState(LocalTheorems.Verdict(s.notes).value)
      && !EndsOpen(recorded)
  {
    LocalTheorems.RunOutcome(binding, actions);
    StreamSettlesRun(run, Events.Kinds(LocalModel.Exec(LocalModel.Init(binding), actions).emitter));
  }
}
