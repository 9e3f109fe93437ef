// The per-job promise chain behind GatewayRuntime.#persist.
//
// Every call takes a snapshot, chains a write behind the newest unsettled write of the
// same job, and publishes itself as the new chain end.  When a caller resumes it drops
// the chain end, but only if the chain end is still its own write.
module PersistQueue {
  import opened Wrappers

  // A write starts when its predecessor settled, writes a temporary file, then renames it.
  datatype Phase = Waiting | Writing | Renaming | Landed | Broken

  datatype Op<S> = Op(snapshot: S, previous: Option<nat>, phase: Phase, released: bool)

  // `entry` is the map entry of the job; `landings` records renames in the order they happened.
  datatype Queue<S> = Queue(ops: seq<Op<S>>, entry: Option<nat>, disk: Option<S>, landings: seq<nat>)

  datatype Act<S> = Call(snapshot: S) | Write(op: nat, ok: bool) | Return(op: nat)

  predicate Settled(phase: Phase) {
    phase.Landed? || phase.Broken?
  }

  function Empty<S>(disk: Option<S>): Queue<S> {
    Queue([], None, disk, [])
  }

  // runtime.mjs 320-327: snapshot, chain behind the current entry, become the entry.
  function Enqueue<S>(q: Queue<S>, snapshot: S): Queue<S> {
    q.(ops := q.ops + [Op(snapshot, q.entry, Waiting, false)], entry := Some(|q.ops|))
  }

  predicate MayStart<S>(q: Queue<S>, i: nat)
    requires i < |q.ops|
  {
    match q.ops[i].previous
    case None => true
    case Some(p) => p < |q.ops| && Settled(q.ops[p].phase)
  }

  // runtime.mjs 322-326: the environment advances write `i`; `ok` is the file system's answer.
  function Advance<S>(q: Queue<S>, i: nat, ok: bool): Queue<S> {
    if i >= |q.ops| then q else
      var op := q.ops[i];
      match op.phase
      case Waiting => if MayStart(q, i) then q.(ops := q.ops[i := op.(phase := Writing)]) else q
      case Writing => q.(ops := q.ops[i := op.(phase := if ok then Renaming else Broken)])
      case Renaming =>
        if ok then q.(ops := q.ops[i := op.(phase := Landed)], disk := Some(op.snapshot), landings := q.landings + [i])
        else q.(ops := q.ops[i := op.(phase := Broken)])
      case Landed => q
      case Broken => q
  }

  // runtime.mjs 328-332: the caller of a settled write resumes and tidies the map.
  function Release<S>(q: Queue<S>, i: nat): Queue<S> {
    if i < |q.ops| && Settled(q.ops[i].phase) && !q.ops[i].released then
      q.(ops := q.ops[i := q.ops[i].(released := true)], entry := if q.entry == Some(i) then None else q.entry)
    else q
  }

  function Next<S>(q: Queue<S>, a: Act<S>): Queue<S> {
    match a
    case Call(snapshot) => Enqueue(q, snapshot)
    case Write(i, ok) => Advance(q, i, ok)
    case Return(i) => Release(q, i)
  }

  function Exec<S>(q: Queue<S>, acts: seq<Act<S>>): Queue<S>
    decreases |acts|
  {
    if acts == [] then q else Exec(Next(q, acts[0]), acts[1..])
  }

  // ----- The atomic log the queue refines -----

  // The calls whose write succeeded, in call order.
  function Successes<S>(ops: seq<Op<S>>): seq<nat> {
    if ops == [] then [] else
      var rest := Successes(ops[..|ops| - 1]);
      if ops[|ops| - 1].phase.Landed? then rest + [|ops| - 1] else rest
  }

  // The newest successful snapshot in call order, or what the disk held at the start.
  function Newest<S>(ops: seq<Op<S>>, start: Option<S>): Option<S> {
    if ops == [] then start
    else if ops[|ops| - 1].phase.Landed? then Some(ops[|ops| - 1].snapshot)
    else Newest(ops[..|ops| - 1], start)
  }

  // Each write points at the call before it, or at nothing once all earlier writes settled;
  // nothing moves before its predecessors settled.
  ghost predicate Chained<S>(ops: seq<Op<S>>) {
    && (forall i :: 0 <= i < |ops| && ops[i].previous.Some? ==> ops[i].previous.value == i - 1)
    && (forall i, j :: 0 <= j < i < |ops| && ops[i].previous.None? ==> Settled(ops[j].phase))
    && (forall i, j :: 0 <= j < i < |ops| && !ops[i].phase.Waiting? ==> Settled(ops[j].phase))
    && (forall i :: 0 <= i < |ops| && ops[i].released ==> Settled(ops[i].phase))
  }

  ghost predicate EntryCovers<S>(q: Queue<S>) {
    match q.entry
    case None => forall i :: 0 <= i < |q.ops| ==> Settled(q.ops[i].phase)
    case Some(e) => e == |q.ops| - 1
  }

  ghost predicate Linked<S>(q: Queue<S>) {
    Chained(q.ops) && EntryCovers(q)
  }

  ghost predicate Valid<S>(q: Queue<S>, start: Option<S>) {
    && Linked(q)
    && q.disk == Newest(q.ops, start)
    && q.landings == Successes(q.ops)
  }

  lemma {:induction false} NewestUntouched<S>(a: seq<Op<S>>, b: seq<Op<S>>, start: Option<S>)
    requires |a| == |b|
    requires forall k :: 0 <= k < |a| ==> a[k].snapshot == b[k].snapshot && a[k].phase.Landed? == b[k].phase.Landed?
    ensures Newest(a, start) == Newest(b, start)
    ensures Successes(a) == Successes(b)
  {
    if a != [] {
      NewestUntouched(a[..|a| - 1], b[..|b| - 1], start);
    }
  }

  // Nothing after `i` has landed, so landing `i` makes it the newest.
  lemma {:induction false} NewestLands<S>(a: seq<Op<S>>, b: seq<Op<S>>, i: nat, start: Option<S>)
    requires i < |a| == |b| && b == a[i := b[i]] && b[i].phase.Landed? && !a[i].phase.Landed?
    requires forall k :: i < k < |a| ==> !a[k].phase.Landed?
    ensures Newest(b, start) == Some(b[i].snapshot)
    ensures Successes(b) == Successes(a) + [i]
  {
    if i < |a| - 1 {
      NewestLands(a[..|a| - 1], b[..|b| - 1], i, start);
    } else {
      assert b[..i] == a[..i];
    }
  }

  lemma EnqueueLinked<S>(q: Queue<S>, snapshot: S)
    requires Linked(q)
    ensures Linked(Enqueue(q, snapshot))
  {
  }

  lemma EnqueueValid<S>(q: Queue<S>, snapshot: S, start: Option<S>)
    requires Valid(q, start)
    ensures Valid(Enqueue(q, snapshot), start)
  {
    EnqueueLinked(q, snapshot);
    var r := Enqueue(q, snapshot);
    assert r.ops[..|r.ops| - 1] == q.ops;
  }

  lemma AdvanceLinked<S>(q: Queue<S>, i: nat, ok: bool)
    requires Linked(q) && i < |q.ops| && Advance(q, i, ok) != q
    ensures Linked(Advance(q, i, ok))
    ensures !Settled(q.ops[i].phase)
    ensures forall j :: 0 <= j < i ==> Settled(q.ops[j].phase)
    ensures forall j :: i < j < |q.ops| ==> q.ops[j].phase.Waiting?
  {
    BeforeSettled(q, i, ok);
    hide MayStart;
  }

  // Nothing moves before its predecessors settled.
  lemma BeforeSettled<S>(q: Queue<S>, i: nat, ok: bool)
    requires Linked(q) && i < |q.ops| && Advance(q, i, ok) != q
    ensures !Settled(q.ops[i].phase)
    ensures forall j :: 0 <= j < i ==> Settled(q.ops[j].phase)
  {
    forall j | 0 <= j < i
      ensures Settled(q.ops[j].phase)
    {
      if q.ops[i].phase.Waiting? && q.ops[i].previous.Some? && j < i - 1 {
        assert !q.ops[i - 1].phase.Waiting?;
      }
    }
  }

  lemma AdvanceValid<S>(q: Queue<S>, i: nat, ok: bool, start: Option<S>)
    requires Valid(q, start)
    ensures Valid(Advance(q, i, ok), start)
  {
    var r := Advance(q, i, ok);
    if r != q {
      AdvanceLinked(q, i, ok);
      assert forall j :: 0 <= j < |q.ops| && Settled(q.ops[j].phase) ==> r.ops[j] == q.ops[j];
      if q.ops[i].phase.Renaming? && ok {
        NewestLands(q.ops, r.ops, i, start);
      } else {
        NewestUntouched(q.ops, r.ops, start);
      }
    }
  }

  lemma ReleaseLinked<S>(q: Queue<S>, i: nat)
    requires Linked(q)
    ensures Linked(Release(q, i))
  {
  }

  lemma ReleaseValid<S>(q: Queue<S>, i: nat, start: Option<S>)
    requires Valid(q, start)
    ensures Valid(Release(q, i), start)
  {
    ReleaseLinked(q, i);
    var r := Release(q, i);
    if r != q {
      NewestUntouched(q.ops, r.ops, start);
    }
  }

  // Whatever is called, written, failed or released, in whatever order, the disk is the newest
  // successful snapshot in call order and renames happened in call order; the map entry, when
  // absent, leaves no unsettled write behind.
  lemma {:induction false} RefinesAtomicLog<S>(q: Queue<S>, acts: seq<Act<S>>, start: Option<S>)
    requires Valid(q, start)
    ensures Valid(Exec(q, acts), start)
    decreases |acts|
  {
    if acts != [] {
      match acts[0] {
        case Call(snapshot) => EnqueueValid(q, snapshot, start);
        case Write(i, ok) => AdvanceValid(q, i, ok, start);
        case Return(i) => ReleaseValid(q, i, start);
      }
      RefinesAtomicLog(Next(q, acts[0]), acts[1..], start);
    }
  }

  // Each snapshot is the value passed at the call: no later activity rewrites it.
  lemma {:induction false} SnapshotsAreFixed<S>(q: Queue<S>, acts: seq<Act<S>>, k: nat)
    requires k < |q.ops|
    ensures k < |Exec(q, acts).ops| && Exec(q, acts).ops[k].snapshot == q.ops[k].snapshot
    ensures Settled(q.ops[k].phase) ==> Exec(q, acts).ops[k].phase == q.ops[k].phase
    decreases |acts|
  {
    if acts != [] {
      SnapshotsAreFixed(Next(q, acts[0]), acts[1..], k);
    }
  }

  predicate InFlight<S>(q: Queue<S>, i: nat)
    requires i < |q.ops|
  {
    q.ops[i].phase.Writing? || q.ops[i].phase.Renaming?
  }

  lemma OneWriteInFlight<S>(acts: seq<Act<S>>, start: Option<S>, i: nat, j: nat)
    requires var q := Exec(Empty(start), acts); i < |q.ops| && j < |q.ops| && InFlight(q, i) && InFlight(q, j)
    ensures i == j
  {
    RefinesAtomicLog(Empty(start), acts, start);
  }

  // The work left: three steps for a write not yet started, two while writing, one while renaming.
  function Remaining<S>(ops: seq<Op<S>>): nat {
    if ops == [] then 0 else
      Remaining(ops[..|ops| - 1]) +
      match ops[|ops| - 1].phase
      case Waiting => 3
      case Writing => 2
      case Renaming => 1
      case Landed => 0
      case Broken => 0
  }

  lemma {:induction false} RemainingDrops<S>(a: seq<Op<S>>, b: seq<Op<S>>, i: nat)
    requires i < |a| == |b| && b == a[i := b[i]]
    requires Remaining([b[i]]) < Remaining([a[i]])
    ensures Remaining(b) < Remaining(a)
  {
    assert [a[i]][..0] == [] && [b[i]][..0] == [];
    if i < |a| - 1 {
      RemainingDrops(a[..|a| - 1], b[..|b| - 1], i);
    } else {
      assert b[..i] == a[..i];
    }
  }

  // What one move of write `i` leaves of it.
  lemma MoveShortens<S>(q: Queue<S>, i: nat, ok: bool)
    requires i < |q.ops| && !Settled(q.ops[i].phase) && (q.ops[i].phase.Waiting? ==> MayStart(q, i))
    ensures var r := Advance(q, i, ok);
      |r.ops| == |q.ops| && r.ops == q.ops[i := r.ops[i]] && Remaining([r.ops[i]]) < Remaining([q.ops[i]])
  {
    var r := Advance(q, i, ok);
    assert [q.ops[i]][..0] == [] && [r.ops[i]][..0] == [];
    hide MayStart;
  }

  lemma AdvanceShortens<S>(q: Queue<S>, i: nat, ok: bool)
    requires Linked(q) && i < |q.ops| && !Settled(q.ops[i].phase)
    requires forall j :: 0 <= j < i ==> Settled(q.ops[j].phase)
    ensures Remaining(Advance(q, i, ok).ops) < Remaining(q.ops)
  {
    hide Remaining;
    assert MayStart(q, i);
    MoveShortens(q, i, ok);
    hide Advance;
    hide Linked;
    RemainingDrops(q.ops, Advance(q, i, ok).ops, i);
  }

  // A failed write neither blocks nor reorders the later ones: the first unsettled write can
  // always move, whatever happened to those before it, and every move shortens the work left.
  lemma FirstUnsettledMoves<S>(acts: seq<Act<S>>, start: Option<S>, i: nat, ok: bool)
    requires var q := Exec(Empty(start), acts);
      && i < |q.ops| && !Settled(q.ops[i].phase)
      && forall j :: 0 <= j < i ==> Settled(q.ops[j].phase)
    ensures var q := Exec(Empty(start), acts); Remaining(Advance(q, i, ok).ops) < Remaining(q.ops)
  {
    RefinesAtomicLog(Empty(start), acts, start);
    AdvanceShortens(Exec(Empty(start), acts), i, ok);
    hide Exec;
    hide Advance;
  }

  // Either the disk is untouched since `start`, or it holds one particular landed snapshot.
  lemma {:induction false} NewestWitness<S>(ops: seq<Op<S>>, start: Option<S>) returns (k: nat)
    ensures k == |ops| ==> Newest(ops, start) == start && forall j :: 0 <= j < |ops| ==> !ops[j].phase.Landed?
    ensures k <= |ops|
    ensures k < |ops| ==> ops[k].phase.Landed? && Newest(ops, start) == Some(ops[k].snapshot)
    ensures k < |ops| ==> forall j :: k < j < |ops| ==> !ops[j].phase.Landed?
  {
    if ops == [] {
      k := 0;
    } else if ops[|ops| - 1].phase.Landed? {
      k := |ops| - 1;
    } else {
      var init := ops[..|ops| - 1];
      var r := NewestWitness(init, start);
      k := if r == |init| then |ops| else r;
    }
  }

  // Once anything landed, the disk is the newest landed snapshot, whatever it held before.
  ghost predicate Current<S>(q: Queue<S>) {
    q.disk == Newest(q.ops, q.disk)
  }

  lemma NextCurrent<S>(q: Queue<S>, a: Act<S>)
    requires Linked(q) && Current(q)
    ensures Current(Next(q, a))
  {
    var r := Next(q, a);
    match a {
      case Call(_) => assert r.ops[..|r.ops| - 1] == q.ops;
      case Write(i, ok) =>
        if r != q {
          AdvanceLinked(q, i, ok);
          hide Linked;
          if r.ops[i].phase.Landed? {
            NewestLands(q.ops, r.ops, i, r.disk);
          } else {
            NewestUntouched(q.ops, r.ops, q.disk);
          }
        }
      case Return(_) => NewestUntouched(q.ops, r.ops, q.disk);
    }
  }

  // ----- What the file system answered -----

  // Write `i` was on its way and the file system answered.
  predicate Answers<S>(q: Queue<S>, a: Act<S>, i: nat) {
    a.Write? && a.op == i && i < |q.ops| && InFlight(q, i)
  }

  // How often it has answered so far, if never with a failure.
  function GoodAnswers<S>(q: Queue<S>, acts: seq<Act<S>>, i: nat): nat
    decreases |acts|
  {
    if acts == [] then 0
    else (if Answers(q, acts[0], i) && acts[0].ok then 1 else 0) + GoodAnswers(Next(q, acts[0]), acts[1..], i)
  }

  predicate EverFailed<S>(q: Queue<S>, acts: seq<Act<S>>, i: nat)
    decreases |acts|
  {
    acts != [] && ((Answers(q, acts[0], i) && !acts[0].ok) || EverFailed(Next(q, acts[0]), acts[1..], i))
  }

  // What a write has heard, by its phase.
  predicate Heard<S>(q: Queue<S>, i: nat, good: nat, failed: bool) {
    if i >= |q.ops| then good == 0 && !failed
    else
      match q.ops[i].phase
      case Waiting => good == 0 && !failed
      case Writing => good == 0 && !failed
      case Renaming => good == 1 && !failed
      case Landed => good == 2 && !failed
      case Broken => failed
  }

  lemma StepHeard<S>(q: Queue<S>, a: Act<S>, i: nat, good: nat, failed: bool)
    requires Heard(q, i, good, failed)
    ensures Heard(
      Next(q, a), i, good + (if Answers(q, a, i) && a.ok then 1 else 0), failed || (Answers(q, a, i) && !a.ok))
  {
  }

  lemma {:induction false} ExecHeard<S>(q: Queue<S>, acts: seq<Act<S>>, i: nat, good: nat, failed: bool)
    requires Heard(q, i, good, failed)
    ensures Heard(Exec(q, acts), i, good + GoodAnswers(q, acts, i), failed || EverFailed(q, acts, i))
    decreases |acts|
  {
    hide Next;
    hide Heard;
    if acts != [] {
      var a := acts[0];
      StepHeard(q, a, i, good, failed);
      ExecHeard(
        Next(q, a), acts[1..], i, good + (if Answers(q, a, i) && a.ok then 1 else 0), failed
          || (Answers(q, a, i) && !a.ok));
    }
  }

  // A write lands exactly if the file system answered it twice, for the temporary file and for the
  // rename, and both times well; it is lost exactly if it once answered with a failure.
  lemma LandsIfAnsweredWell<S>(acts: seq<Act<S>>, start: Option<S>, i: nat)
    requires i < |Exec(Empty(start), acts).ops|
    ensures var phase := Exec(Empty(start), acts).ops[i].phase;
      && (phase.Landed? <==> GoodAnswers(Empty(start), acts, i) == 2 && !EverFailed(Empty(start), acts, i))
      && (phase.Broken? <==> EverFailed(Empty(start), acts, i))
  {
    ExecHeard(Empty(start), acts, i, 0, false);
    hide Exec;
    hide GoodAnswers;
    hide EverFailed;
  }
}
