// Every write that has not failed can still reach the disk, and its caller can resume.
module GatewayWrites {
  import opened Wrappers
  import opened GatewayModel
  import opened GatewayInvariant
  import opened GatewayEdges
  import Queue = PersistQueue

  predicate Broken(q: Queue.Queue<Job>, op: nat) {
    op < |q.ops| && q.ops[op].phase.Broken?
  }

  // Only the file system and the callers of settled writes move, and nothing fails.
  predicate Saving(actions: seq<Action>) {
    forall k :: 0 <= k < |actions| ==> (actions[k].DiskWrite? && actions[k].ok) || actions[k].WriteReturns?
  }

  lemma FirstOpen(q: Queue.Queue<Job>, op: nat) returns (first: nat)
    requires op < |q.ops| && !Queue.Settled(q.ops[op].phase)
    ensures first <= op && !Queue.Settled(q.ops[first].phase)
    ensures forall j :: 0 <= j < first ==> Queue.Settled(q.ops[j].phase)
  {
    first := 0;
    while Queue.Settled(q.ops[first].phase)
      invariant first <= op && forall j :: 0 <= j < first ==> Queue.Settled(q.ops[j].phase)
      decreases op - first
    {
      first := first + 1;
    }
  }

  // What one good answer of the file system may do to write `op`.
  predicate Nearer(q: Queue.Queue<Job>, r: Queue.Queue<Job>, op: nat)
    requires op < |q.ops|
  {
    && |r.ops| == |q.ops| && r.ops[op].snapshot == q.ops[op].snapshot && !r.ops[op].phase.Broken?
    && (r.ops[op].phase.Landed? ==> r.disk == Some(q.ops[op].snapshot))
  }

  lemma MovesNearer(q: Queue.Queue<Job>, first: nat, op: nat)
    requires op < |q.ops| && !Queue.Settled(q.ops[op].phase)
    ensures Nearer(q, Queue.Advance(q, first, true), op)
  {
  }

  lemma NearerYet(q: Queue.Queue<Job>, r: Queue.Queue<Job>, u: Queue.Queue<Job>, op: nat)
    requires op < |q.ops| && Nearer(q, r, op) && op < |r.ops| && Nearer(r, u, op)
    ensures Nearer(q, u, op)
  {
  }

  lemma FirstMoves(q: Queue.Queue<Job>, op: nat) returns (first: nat)
    requires Queue.Linked(q) && op < |q.ops| && !Queue.Settled(q.ops[op].phase)
    ensures var r := Queue.Advance(q, first, true);
      Queue.Linked(r) && Nearer(q, r, op) && Queue.Remaining(r.ops) < Queue.Remaining(q.ops)
      && |r.ops| == |q.ops| && (Queue.Settled(r.ops[op].phase) ==> r.ops[op].phase.Landed?)
  {
    hide Queue.Linked;
    hide Queue.Advance;
    hide Queue.Remaining;
    first := FirstOpen(q, op);
    MovesNearer(q, first, op);
    Queue.AdvanceShortens(q, first, true);
    Queue.AdvanceLinked(q, first, true);
  }

  // The file system settles the writes in order until `op` is the file.
  lemma {:induction false} CanLand(s: Sys, op: nat) returns (actions: seq<Action>)
    requires Queue.Linked(s.queue) && op < |s.queue.ops| && !Queue.Settled(s.queue.ops[op].phase)
    ensures Saving(actions)
    ensures var t := Exec(s, actions);
      t == s.(queue := t.queue) && Nearer(s.queue, t.queue, op) && t.queue.ops[op].phase.Landed?
    decreases Queue.Remaining(s.queue.ops)
  {
    hide Queue.Linked;
    hide Queue.Remaining;
    hide Queue.Advance;
    hide Nearer;
    var first := FirstMoves(s.queue, op);
    var a, r := DiskWrite(first, true), Queue.Advance(s.queue, first, true);
    var rest: seq<Action> := [];
    if !r.ops[op].phase.Landed? {
      rest := CanLand(s.(queue := r), op);
      NearerYet(s.queue, r, Exec(s.(queue := r), rest).queue, op);
    }
    actions := [a] + rest;
    assert actions[1..] == rest;
    assert Next(s, a) == s.(queue := r);
    hide Next;
  }

  // The awaited write comes back, landed unless it had failed.
  lemma CanReturn(s: Sys, op: nat) returns (actions: seq<Action>)
    requires Queue.Linked(s.queue) && op < |s.queue.ops|
    ensures Saving(actions)
    ensures var t := Exec(s, actions);
      t == s.(queue := t.queue) && Back(t, op) && (Saved(t, op) <==> !Broken(s.queue, op))
  {
    hide Queue.Linked;
    var write: seq<Action> := [];
    if !Queue.Settled(s.queue.ops[op].phase) {
      write := CanLand(s, op);
    }
    var t := Exec(s, write);
    actions := write + [WriteReturns(op)];
    ExecConcat(s, write, [WriteReturns(op)]);
    One(t, WriteReturns(op));
    hide Exec;
  }

  // The write lands and the process dies then: the next one loads that snapshot.
  lemma CanReload(s: Sys, op: nat) returns (actions: seq<Action>)
    requires Queue.Linked(s.queue) && op < |s.queue.ops| && !Queue.Settled(s.queue.ops[op].phase)
    ensures Exec(s, actions).job == Repair(s.queue.ops[op].snapshot)
  {
    var write := CanLand(s, op);
    actions := write + [Restart];
    ExecConcat(s, write, [Restart]);
    One(Exec(s, write), Restart);
    hide Queue.Linked;
    hide Exec;
    hide Repair;
    hide NeedsRepair;
  }
}
