// mapLimit: min(limit, items) workers share one counter and run one item at a time each.
module WorkerPool {
  datatype Worker = Ready | Busy(item: nat) | Retired | Rejected(failed: nat)

  // `claims` and `done` record, in order, the items taken and the tasks that fulfilled.
  datatype Pool = Pool(items: nat, next: nat, workers: seq<Worker>, claims: seq<nat>, done: set<nat>)

  // Worker `w` runs until its next await: `ok` says how the task it was awaiting settled.
  datatype Act = Act(w: nat, ok: bool)

  function WorkerCount(items: nat, limit: int): nat {
    if limit < 0 then 0 else if limit < items then limit else items
  }

  function Start(items: nat, limit: int): Pool {
    Pool(items, 0, seq(WorkerCount(items, limit), _ => Ready), [], {})
  }

  // runtime.mjs 391-393: claim the next item, or leave the loop.
  function Loop(p: Pool, w: nat): Pool
    requires w < |p.workers|
  {
    if p.next < p.items then
      p.(next := p.next + 1, workers := p.workers[w := Busy(p.next)], claims := p.claims + [p.next])
    else
      p.(workers := p.workers[w := Retired])
  }

  function Next(p: Pool, a: Act): Pool {
    if a.w >= |p.workers| then p else
      match p.workers[a.w]
      case Ready => Loop(p, a.w)
      case Busy(item) =>
        if a.ok then Loop(p.(done := p.done + {item}), a.w)
        else p.(workers := p.workers[a.w := Rejected(item)])
      case Retired => p
      case Rejected(_) => p
  }

  function Exec(p: Pool, acts: seq<Act>): Pool
    decreases |acts|
  {
    if acts == [] then p else Exec(Next(p, acts[0]), acts[1..])
  }

  // Promise.all over the workers: it rejects as soon as one worker did, and resolves once all returned.
  predicate Rejects(p: Pool) {
    exists w :: 0 <= w < |p.workers| && p.workers[w].Rejected?
  }

  predicate Resolves(p: Pool) {
    forall w :: 0 <= w < |p.workers| ==> p.workers[w].Retired?
  }

  function Holds(worker: Worker): set<nat> {
    match worker
    case Busy(i) => {i}
    case Rejected(i) => {i}
    case Ready => {}
    case Retired => {}
  }

  function InFlight(workers: seq<Worker>): set<nat> {
    set w | 0 <= w < |workers| && workers[w].Busy? :: workers[w].item
  }

  ghost predicate Valid(p: Pool) {
    && p.next <= p.items
    && p.claims == seq(p.next, i => i)
    && (forall w :: 0 <= w < |p.workers| ==> forall i :: i in Holds(p.workers[w]) ==> i < p.next && i !in p.done)
    && (forall v, w :: 0 <= v < w < |p.workers| ==> Holds(p.workers[v]) !! Holds(p.workers[w]))
    && (forall i :: i in p.done ==> i < p.next)
    && (forall i :: 0 <= i < p.next && i !in p.done ==> exists w :: 0 <= w < |p.workers| && i in Holds(p.workers[w]))
    && (forall w :: 0 <= w < |p.workers| && p.workers[w].Retired? ==> p.next == p.items)
  }

  lemma LoopValid(p: Pool, w: nat, i: nat)
    requires Valid(p) && w < |p.workers|
    requires p.workers[w].Ready? || p.workers[w] == Busy(i)
    ensures Valid(Next(p, Act(w, true)))
  {
    var r := Next(p, Act(w, true));
    assert r.claims == seq(r.next, k => k);
    forall k | 0 <= k < r.next && k !in r.done
      ensures exists v :: 0 <= v < |r.workers| && k in Holds(r.workers[v])
    {
      if k == p.next {
        assert k in Holds(r.workers[w]);
      } else {
        var v :| 0 <= v < |p.workers| && k in Holds(p.workers[v]);
        assert v != w;
        assert r.workers[v] == p.workers[v];
      }
    }
  }

  lemma SameHoldings(a: seq<Worker>, b: seq<Worker>, w: nat)
    requires w < |a| && a[w].Busy? && b == a[w := Rejected(a[w].item)]
    ensures forall v :: 0 <= v < |a| ==> Holds(b[v]) == Holds(a[v])
  {
  }

  lemma RejectValid(p: Pool, w: nat)
    requires Valid(p) && w < |p.workers| && p.workers[w].Busy?
    ensures Valid(Next(p, Act(w, false)))
  {
    var r := Next(p, Act(w, false));
    SameHoldings(p.workers, r.workers, w);
  }

  lemma NextValid(p: Pool, a: Act)
    requires Valid(p)
    ensures Valid(Next(p, a))
    ensures |Next(p, a).workers| == |p.workers| && Next(p, a).items == p.items
  {
    if a.w < |p.workers| {
      match p.workers[a.w] {
        case Ready => assert Next(p, a) == Next(p, Act(a.w, true)); LoopValid(p, a.w, 0);
        case Busy(item) => if a.ok { LoopValid(p, a.w, item); } else { RejectValid(p, a.w); }
        case Retired =>
        case Rejected(_) =>
      }
    }
  }

  lemma {:induction false} ExecValid(p: Pool, acts: seq<Act>)
    requires Valid(p)
    ensures Valid(Exec(p, acts))
    ensures |Exec(p, acts).workers| == |p.workers| && Exec(p, acts).items == p.items
    decreases |acts|
  {
    if acts != [] {
      NextValid(p, acts[0]);
      ExecValid(Next(p, acts[0]), acts[1..]);
    }
  }

  lemma {:induction false} InFlightBound(workers: seq<Worker>)
    ensures |InFlight(workers)| <= |workers|
  {
    if workers == [] {
      assert InFlight(workers) == {};
    } else {
      var init, last := workers[..|workers| - 1], workers[|workers| - 1];
      InFlightBound(init);
      var extra: set<nat> := if last.Busy? then {last.item} else {};
      assert InFlight(workers) == InFlight(init) + extra by {
        forall i | i in InFlight(workers)
          ensures i in InFlight(init) + extra
        {
          var w :| 0 <= w < |workers| && workers[w].Busy? && workers[w].item == i;
          if w < |init| { assert init[w] == workers[w]; }
        }
        forall i | i in InFlight(init) + extra
          ensures i in InFlight(workers)
        {
          if i in InFlight(init) {
            var w :| 0 <= w < |init| && init[w].Busy? && init[w].item == i;
            assert workers[w] == init[w];
          }
        }
      }
    }
  }

  // Under every interleaving the claimed items are the prefix [0, next), each claimed once, and at
  // most as many tasks run at a time as there are workers: as many as limit and items both allow.
  lemma BoundedPool(items: nat, limit: int, acts: seq<Act>)
    ensures var p := Exec(Start(items, limit), acts);
      && Valid(p)
      && p.claims == seq(p.next, i => i)
      && |InFlight(p.workers)| <= |p.workers|
      && (if limit < 0 then |p.workers| == 0
          else |p.workers| <= items && |p.workers| <= limit && (|p.workers| == items || |p.workers| == limit))
  {
    ExecValid(Start(items, limit), acts);
    InFlightBound(Exec(Start(items, limit), acts).workers);
  }

  // When the pool resolves, every task has fulfilled: exactly if the limit allowed one worker
  // (or there was nothing to do).  A limit below one resolves at once with nothing run.
  lemma ResolvedMeansDone(items: nat, limit: int, acts: seq<Act>)
    requires Resolves(Exec(Start(items, limit), acts))
    ensures (forall i :: 0 <= i < items ==> i in Exec(Start(items, limit), acts).done) <==> limit >= 1 || items == 0
  {
    var p := Exec(Start(items, limit), acts);
    ExecValid(Start(items, limit), acts);
    if limit >= 1 && items > 0 {
      assert p.workers[0].Retired?;
    } else if items > 0 {
      assert p.next == 0 by {
        NoWorkers(Start(items, limit), acts);
      }
      assert 0 !in p.done;
    }
  }

  lemma {:induction false} NoWorkers(p: Pool, acts: seq<Act>)
    requires |p.workers| == 0
    ensures Exec(p, acts) == p
    decreases |acts|
  {
    if acts != [] {
      NoWorkers(p, acts[1..]);
    }
  }

  function Live(workers: seq<Worker>): nat {
    if workers == [] then 0 else
      var last := workers[|workers| - 1];
      Live(workers[..|workers| - 1]) + (if last.Retired? || last.Rejected? then 0 else 1)
  }

  function Measure(p: Pool): int {
    2 * (p.items - p.next) + Live(p.workers)
  }

  lemma {:induction false} LiveUpdate(a: seq<Worker>, w: nat, x: Worker)
    requires w < |a| && (a[w].Ready? || a[w].Busy?)
    ensures Live(a[w := x]) == Live(a) - (if x.Retired? || x.Rejected? then 1 else 0)
  {
    if w < |a| - 1 {
      assert a[w := x][..|a| - 1] == a[..|a| - 1][w := x];
      LiveUpdate(a[..|a| - 1], w, x);
    } else {
      assert a[w := x][..w] == a[..w];
    }
  }

  lemma StepShortens(p: Pool, a: Act)
    requires Valid(p)
    ensures Measure(p) >= 0
    ensures Next(p, a) != p ==> Measure(Next(p, a)) < Measure(p)
  {
    if Next(p, a) != p {
      LiveUpdate(p.workers, a.w, Next(p, a).workers[a.w]);
      assert Next(p, a).workers == p.workers[a.w := Next(p, a).workers[a.w]];
    }
  }

  // Every step that does anything brings the pool nearer its end, so it cannot spin.
  lemma StepsTerminate(items: nat, limit: int, acts: seq<Act>, a: Act)
    ensures var p := Exec(Start(items, limit), acts);
      && Measure(p) >= 0
      && (Next(p, a) != p ==> Measure(Next(p, a)) < Measure(p))
  {
    ExecValid(Start(items, limit), acts);
    StepShortens(Exec(Start(items, limit), acts), a);
  }
}
