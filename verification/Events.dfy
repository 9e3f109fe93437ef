// Event numbering (adapter-sdk) and the stream checker (conformance-kit).
module Events {
  import opened Wrappers

  datatype EventType =
    | RunStarted | ApprovalRequested | WaitingApproval | ApprovalDecided | Progress | CancelRequested
    | MessageCompleted | ArtifactCreated | UsageUpdated
    | RunSucceeded | RunFailed | RunCancelled | RunTimedOut
    | Other(name: string)

  // adapter-sdk 9-14
  predicate TerminalType(t: EventType) {
    t.RunSucceeded? || t.RunFailed? || t.RunCancelled? || t.RunTimedOut?
  }

  // The five identities every event of a session carries.
  datatype Binding = Binding(traceId: string, jobId: string, runId: string, adapterId: string, nativeSessionId: string)

  datatype Event = Event(id: nat, binding: Binding, sequence: nat, kind: EventType)

  // An event factory with its captured counter, and the events it has made so far.
  datatype Emitter = Emitter(binding: Binding, sequence: nat, events: seq<Event>)

  function NewEmitter(binding: Binding): Emitter {
    Emitter(binding, 0, [])
  }

  // `id` is the answer of randomUUID.
  function Emit(e: Emitter, id: nat, kind: EventType): Emitter {
    e.(sequence := e.sequence + 1, events := e.events + [Event(id, e.binding, e.sequence + 1, kind)])
  }

  predicate Unused(e: Emitter, id: nat) {
    forall k :: 0 <= k < |e.events| ==> e.events[k].id != id
  }

  ghost predicate Numbered(e: Emitter) {
    && e.sequence == |e.events|
    && (forall k :: 0 <= k < |e.events| ==> e.events[k].sequence == k + 1 && e.events[k].binding == e.binding)
    && (forall j, k :: 0 <= j < k < |e.events| ==> e.events[j].id != e.events[k].id)
  }

  lemma EmitNumbers(e: Emitter, id: nat, kind: EventType)
    requires Numbered(e) && Unused(e, id)
    ensures Numbered(Emit(e, id, kind))
    ensures Kinds(Emit(e, id, kind)) == Kinds(e) + [kind]
  {
  }

  // Every id so far is below `n`, so `n` is fresh.
  predicate Below(e: Emitter, n: nat) {
    forall k :: 0 <= k < |e.events| ==> e.events[k].id < n
  }

  lemma BelowEmit(e: Emitter, n: nat, kind: EventType)
    requires Below(e, n)
    ensures Unused(e, n) && Below(Emit(e, n, kind), n + 1)
  {
  }

  function Kinds(e: Emitter): seq<EventType> {
    seq(|e.events|, k requires 0 <= k < |e.events| => e.events[k].kind)
  }

  // createEventFactory: the binding is checked once, then each call numbers one event.
  class EventFactory {
    const binding: Binding
    var sequence: nat
    ghost var made: seq<Event>

    ghost predicate Valid()
      reads this
    {
      Numbered(Emitter(binding, sequence, made))
    }

    constructor (binding: Binding)
      ensures Valid() && this.binding == binding && made == []
    {
      this.binding := binding;
      sequence := 0;
      made := [];
    }

    method Make(id: nat, kind: EventType) returns (event: Event)
      requires Valid() && Unused(Emitter(binding, sequence, made), id)
      modifies this
      ensures Valid()
      ensures Emitter(binding, sequence, made) == Emit(old(Emitter(binding, sequence, made)), id, kind)
      ensures made == old(made) + [event]
    {
      EmitNumbers(Emitter(binding, sequence, made), id, kind);
      sequence := sequence + 1;
      event := Event(id, binding, sequence, kind);
      made := made + [event];
    }
  }

  predicate Complete(b: Binding) {
    b.traceId != "" && b.jobId != "" && b.runId != "" && b.adapterId != "" && b.nativeSessionId != ""
  }

  // adapter-sdk 142-147: a factory exists only for a complete binding.
  method CreateEventFactory(binding: Binding) returns (r: Option<EventFactory>)
    ensures r.Some? <==> Complete(binding)
    ensures r.Some? ==> fresh(r.value) && r.value.Valid() && r.value.binding == binding && r.value.made == []
  {
    if !Complete(binding) {
      return None;
    }
    var factory := new EventFactory(binding);
    r := Some(factory);
  }

  // ----- The checker -----

  // A stream is contiguous from one and repeats no id (conformance-kit 10-20).
  predicate Monotonic(events: seq<Event>) {
    && events != []
    && (forall k :: 0 <= k < |events| ==> events[k].sequence == k + 1)
    && (forall j, k :: 0 <= j < k < |events| ==> events[j].id != events[k].id)
  }

  method AssertMonotonicEvents(events: seq<Event>) returns (ok: bool)
    ensures ok <==> Monotonic(events)
  {
    if events == [] {
      return false;
    }
    var ids: set<nat> := {};
    var previous := 0;
    var i := 0;
    while i < |events|
      invariant 0 <= i <= |events| && previous == i
      invariant ids == set k | 0 <= k < i :: events[k].id
      invariant forall k :: 0 <= k < i ==> events[k].sequence == k + 1
      invariant forall j, k :: 0 <= j < k < i ==> events[j].id != events[k].id
    {
      if events[i].sequence != previous + 1 {
        return false;
      }
      previous := events[i].sequence;
      if events[i].id in ids {
        return false;
      }
      ids := ids + {events[i].id};
      i := i + 1;
    }
    return true;
  }

  function Terminals(events: seq<Event>): seq<Event> {
    if events == [] then []
    else
      var rest := Terminals(events[..|events| - 1]);
      if TerminalType(events[|events| - 1].kind) then rest + [events[|events| - 1]] else rest
  }

  // conformance-kit 22-27: the filtered stream, its length, and its type when one is expected.
  method AssertSingleTerminalEvent(events: seq<Event>, expected: Option<EventType>) returns (r: Option<Event>)
    ensures r.Some? <==> |Terminals(events)| == 1 && (expected.Some? ==> Terminals(events)[0].kind == expected.value)
    ensures r.Some? ==> Terminals(events) == [r.value]
  {
    var terminals: seq<Event> := [];
    var i := 0;
    while i < |events|
      invariant 0 <= i <= |events| && terminals == Terminals(events[..i])
    {
      assert events[..i + 1][..i] == events[..i];
      if TerminalType(events[i].kind) {
        terminals := terminals + [events[i]];
      }
      i := i + 1;
    }
    assert events[..i] == events;
    if |terminals| != 1 || (expected.Some? && terminals[0].kind != expected.value) {
      return None;
    }
    return Some(terminals[0]);
  }

  // Exactly one terminal event, and nothing after it.
  predicate EndsOnce(kinds: seq<EventType>) {
    && kinds != []
    && TerminalType(kinds[|kinds| - 1])
    && forall k :: 0 <= k < |kinds| - 1 ==> !TerminalType(kinds[k])
  }

  // No terminal event yet.
  predicate Open(kinds: seq<EventType>) {
    forall k :: 0 <= k < |kinds| ==> !TerminalType(kinds[k])
  }

  lemma EndsOnceAppend(kinds: seq<EventType>, kind: EventType)
    requires TerminalType(kind) && Open(kinds)
    ensures EndsOnce(kinds + [kind]) && (kinds + [kind])[|kinds + [kind]| - 1] == kind
  {
  }

  lemma {:induction false} NoTerminals(events: seq<Event>)
    requires forall k :: 0 <= k < |events| ==> !TerminalType(events[k].kind)
    ensures Terminals(events) == []
  {
    if events != [] {
      NoTerminals(events[..|events| - 1]);
    }
  }

  // What every adapter below is shown to produce: numbered events ending in their only terminal
  // event are accepted by both checks, and carry the identities of their session.
  lemma GoodStreamsPass(e: Emitter)
    requires Numbered(e) && EndsOnce(Kinds(e))
    ensures Monotonic(e.events)
    ensures Terminals(e.events) == [e.events[|e.events| - 1]]
    ensures forall k :: 0 <= k < |e.events| ==> e.events[k].binding == e.binding
  {
    var n := |e.events| - 1;
    assert Kinds(e)[n] == e.events[n].kind;
    assert forall k :: 0 <= k < n ==> Kinds(e)[k] == e.events[k].kind;
    NoTerminals(e.events[..n]);
  }
}
