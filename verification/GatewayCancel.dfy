// What cancelJob and cancelRun reach: no run is passed over, every adapter concerned is asked, and
// every flag shows exactly the calls that were made.
module GatewayCancel {
  import opened Wrappers
  import opened GatewayModel
  import opened GatewayInvariant
  import opened GatewayTheorems
  import opened GatewaySessions
  import opened GatewayEdges
  import opened GatewayFinality
  import opened GatewayAbsorption
  import opened GatewayOutcome
  import opened GatewayDurable
  import Queue = PersistQueue
  import Pool = WorkerPool

  // ----- One turn of cancelJob -----

  // The adapter of this session was asked to cancel, once.
  predicate Asked(a: Task, b: Task) {
    a.session.Some? && b == a.(session := Some(a.session.value.(cancels := a.session.value.cancels + 1)))
  }

  // A run the sweep passed, or did not come to.
  predicate RunSwept(a: Run, b: Run, passed: bool) {
    b == if passed && !Terminal(a.state) then a.(state := CANCELLED) else a
  }

  // From run `from` up to `stop` every run was terminal, or idle and is now CANCELLED; at `stop`
  // the adapter of an active run was asked, or the runs are at their end and the job is saved.
  ghost predicate Swept(s: Sys, t: Sys, from: nat, stop: nat, frame: Cancel) {
    && from <= stop <= |s.job.runs| == |t.job.runs| && |t.tasks| == |s.tasks| == |s.job.runs|
    && t == s.(job := s.job.(runs := t.job.runs), tasks := t.tasks, queue := t.queue)
    && (forall k :: 0 <= k < |s.job.runs| ==> RunSwept(s.job.runs[k], t.job.runs[k], from <= k < stop))
    && (forall k :: from <= k < stop ==> Terminal(s.job.runs[k].state) || k !in s.active)
    && if stop < |s.job.runs| then
         && stop in s.active && !Terminal(s.job.runs[stop].state)
         && frame == JobAwaitAdapter(stop) && t.queue == s.queue
         && t.tasks == s.tasks[stop := t.tasks[stop]] && Asked(s.tasks[stop], t.tasks[stop])
       else
         frame == JobAwaitPersist(|s.queue.ops|) && t.tasks == s.tasks && t.queue == Queue.Enqueue(s.queue, t.job)
  }

  lemma AdapterAsked(s: Sys, i: nat)
    requires Inv(s) && InRange(s, i) && i in s.active
    ensures var t := CallAdapterCancel(s, i);
      t == s.(tasks := t.tasks) && |t.tasks| == |s.tasks| && t.tasks == s.tasks[i := t.tasks[i]]
      && Asked(s.tasks[i], t.tasks[i])
  {
    hide Inv;
    TaskAt(s, i);
  }

  lemma SweepReaches(s: Sys, from: nat) returns (stop: nat)
    requires Inv(s) && from <= |s.job.runs|
    ensures Swept(s, Sweep(s, from).0, from, stop, Sweep(s, from).1)
  {
    hide Queue.Enqueue;
    stop := SweepStop(s.job.runs, s.active, from);
    SweepStops(s.job.runs, s.active, from);
    LengthsAgree(s);
    if stop < |s.job.runs| {
      SweptInv(s, from, stop);
      AdapterAsked(s.(job := s.job.(runs := SweepRuns(s.job.runs, from, stop))), stop);
    }
    hide Inv;
    hide SweepStop;
    hide CallAdapterCancel;
  }

  lemma SweptInv(s: Sys, from: nat, stop: nat)
    requires Inv(s) && forall k :: from <= k < stop && k < |s.job.runs| ==>
      Terminal(s.job.runs[k].state) || k !in s.active
    ensures Inv(s.(job := s.job.(runs := SweepRuns(s.job.runs, from, stop))))
  {
    var t := s.(job := s.job.(runs := SweepRuns(s.job.runs, from, stop)));
    assert Marked(s, t);
    MarkedPreserves(s, t);
    hide Inv;
  }

  // The run of the adapter that answered, with a thrown error noted.
  function Noted(s: Sys, i: nat, threw: bool): Sys
    requires i < |s.job.runs|
  {
    s.(job := s.job.(runs := s.job.runs[i := s.job.runs[i].(cancelError := s.job.runs[i].cancelError || threw)]))
  }

  lemma NotedIs(s: Sys, i: nat, threw: bool)
    requires i < |s.job.runs|
    ensures NoteError(s, i, threw) == Noted(s, i, threw)
  {
    assert s.job.runs[i := s.job.runs[i]] == s.job.runs;
  }

  // Where the resumed frame stands.
  lemma ResumedAt(s: Sys, c: nat, i: nat, threw: bool)
    requires c < |s.cancels| && s.cancels[c] == JobAwaitAdapter(i) && i < |s.job.runs|
    requires Sweep(Noted(s, i, threw), i + 1).0.cancels == s.cancels
    ensures var (u, frame) := Sweep(Noted(s, i, threw), i + 1);
      Next(s, CancelReturns(c, threw)) == u.(cancels := s.cancels[c := frame])
  {
    hide Sweep;
    NotedIs(s, i, threw);
    hide NoteError;
    hide Noted;
  }

  // The answer of the adapter of run `i`: an error is noted there, and the sweep goes on with the
  // very next run.
  lemma AnswerGoesOn(s: Sys, c: nat, threw: bool) returns (stop: nat)
    requires Inv(s) && c < |s.cancels| && s.cancels[c].JobAwaitAdapter? && s.cancels[c].run < |s.job.runs|
    ensures var i, t := s.cancels[c].run, Next(s, CancelReturns(c, threw));
      && c < |t.cancels| && t.cancels == s.cancels[c := t.cancels[c]]
      && Swept(Noted(s, i, threw), t.(cancels := s.cancels), i + 1, stop, t.cancels[c])
  {
    hide Inv;
    hide NoteError;
    hide Noted;
    hide Sweep;
    hide Swept;
    hide Next;
    var i := s.cancels[c].run;
    NoteStep(s, i, threw);
    NotedIs(s, i, threw);
    NotedCancels(s, i, threw);
    var u := Noted(s, i, threw);
    stop := SweepReaches(u, i + 1);
    SweptCancels(u, Sweep(u, i + 1).0, i + 1, stop, Sweep(u, i + 1).1);
    ResumedAt(s, c, i, threw);
    SweptBack(Sweep(u, i + 1).0, s.cancels, c, Sweep(u, i + 1).1);
  }

  lemma NotedCancels(s: Sys, i: nat, threw: bool)
    requires i < |s.job.runs|
    ensures Noted(s, i, threw).cancels == s.cancels && |Noted(s, i, threw).job.runs| == |s.job.runs|
  {
  }

  lemma SweptBack(t: Sys, cancels: seq<Cancel>, c: nat, frame: Cancel)
    requires t.cancels == cancels && c < |cancels|
    ensures t.(cancels := cancels[c := frame]).(cancels := cancels) == t
  {
  }

  lemma SweptCancels(s: Sys, t: Sys, from: nat, stop: nat, frame: Cancel)
    requires Swept(s, t, from, stop, frame)
    ensures t.cancels == s.cancels
  {
  }

  lemma CancelBegins(s: Sys) returns (stop: nat)
    requires Inv(s)
    ensures var t := Next(s, CancelJob);
      && |t.cancels| == |s.cancels| + 1 && t.cancels == s.cancels + [t.cancels[|s.cancels|]]
      && Swept(s.(job := s.job.(cancelRequested := true)), t.(cancels := s.cancels), 0, stop, t.cancels[|s.cancels|])
  {
    var u := s.(job := s.job.(cancelRequested := true));
    RequestStep(s);
    hide Inv;
    stop := SweepReaches(u, 0);
    hide Sweep;
    hide Swept;
    SweptCancels(u, Sweep(u, 0).0, 0, stop, Sweep(u, 0).1);
  }

  lemma RequestStep(s: Sys)
    requires Inv(s)
    ensures Inv(s.(job := s.job.(cancelRequested := true)))
  {
    assert Marked(s, s.(job := s.job.(cancelRequested := true)));
    MarkedPreserves(s, s.(job := s.job.(cancelRequested := true)));
    hide Inv;
  }

  // When the answer about one run arrives, every later run is terminal now, or the frame waits for
  // an adapter at that run or before it.
  lemma AnswerPassesNoRun(s: Sys, c: nat, threw: bool, k: nat)
    requires Inv(s) && c < |s.cancels| && s.cancels[c].JobAwaitAdapter? && s.cancels[c].run < k < |s.job.runs|
    ensures var t := Next(s, CancelReturns(c, threw));
      && c < |t.cancels| && k < |t.job.runs|
      && (Terminal(t.job.runs[k].state) || (t.cancels[c].JobAwaitAdapter? && s.cancels[c].run < t.cancels[c].run <= k))
  {
    var stop := AnswerGoesOn(s, c, threw);
    hide Inv;
    hide Next;
  }

  // ----- Whole schedules -----

  // How often the adapter of run `k` was asked to cancel.
  function Asks(s: Sys, k: nat): nat {
    if k < |s.tasks| && s.tasks[k].session.Some? then s.tasks[k].session.value.cancels else 0
  }

  predicate TerminalAt(s: Sys, k: nat) {
    k < |s.job.runs| && Terminal(s.job.runs[k].state)
  }

  // Since `s`, along `after`, run `k` was terminal at some moment or its adapter was asked.
  ghost predicate Reached(s: Sys, after: seq<Action>, k: nat) {
    || (exists p :: 0 < p <= |after| && TerminalAt(Exec(s, after[..p]), k))
    || Asks(Exec(s, after), k) > Asks(s, k)
  }

  lemma SweptAsks(s: Sys, t: Sys, from: nat, stop: nat, frame: Cancel, k: nat)
    requires Swept(s, t, from, stop, frame)
    ensures Asks(t, k) == if k == stop && stop < |s.job.runs| then Asks(s, k) + 1 else Asks(s, k)
  {
  }

  lemma OwnAsks(s: Sys, a: Action, k: nat)
    requires InRange(s, k) && Resumed(a) == Some(k) && TaskOk(s.job.runs[k], s.tasks[k], k in s.active)
    ensures Asks(Next(s, a), k) == Asks(s, k)
  {
    hide EndsOpen;
    hide Record;
    hide Queue.Enqueue;
  }

  lemma BeginAsks(s: Sys, p: Pool.Pool, i: nat, enabled: bool, k: nat)
    requires InRange(s, i)
    ensures Asks(Begin(s.(pool := p), i, enabled), k) == Asks(s, k)
  {
    hide Queue.Enqueue;
  }

  lemma CancelRunAsks(s: Sys, i: nat)
    requires Inv(s)
    ensures var t := Next(s, CancelRun(i));
      if i in s.active then
        && InRange(s, i)
        && t == s.(job := t.job, tasks := t.tasks, cancels := s.cancels + [RunAwaitAdapter(i)])
        && t.job == s.job.(runs := s.job.runs[i := s.job.runs[i].(cancelRequested := true)])
        && |t.tasks| == |s.tasks| && t.tasks == s.tasks[i := t.tasks[i]] && Asked(s.tasks[i], t.tasks[i])
      else t == s
  {
    LengthsAgree(s);
    if i in s.active {
      assert InRange(s, i);
      var u := GatewayModel.SetRun(s, i, s.job.runs[i].(cancelRequested := true));
      FlagRun(s, i, s.job.runs[i].(cancelRequested := true));
      AdapterAsked(u, i);
    }
    hide Inv;
    hide CallAdapterCancel;
  }

  lemma CancelAsks(s: Sys, k: nat)
    requires Inv(s)
    ensures Asks(s, k) <= Asks(Next(s, CancelJob), k)
  {
    hide Inv;
    hide Next;
    hide Swept;
    var stop := CancelBegins(s);
    var t := Next(s, CancelJob);
    var u := s.(job := s.job.(cancelRequested := true));
    SweptAsks(u, t.(cancels := s.cancels), 0, stop, t.cancels[|s.cancels|], k);
  }

  lemma AnswerAsks(s: Sys, c: nat, threw: bool, k: nat)
    requires Inv(s)
    ensures Asks(s, k) <= Asks(Next(s, CancelReturns(c, threw)), k)
  {
    hide Inv;
    hide Next;
    hide Swept;
    if c < |s.cancels| && s.cancels[c].JobAwaitAdapter? && s.cancels[c].run < |s.job.runs| {
      var stop := AnswerGoesOn(s, c, threw);
      var i, t := s.cancels[c].run, Next(s, CancelReturns(c, threw));
      SweptAsks(Noted(s, i, threw), t.(cancels := s.cancels), i + 1, stop, t.cancels[c], k);
    } else {
      QuietAnswer(s, c, threw);
    }
  }

  lemma ClientAsks(s: Sys, a: Action, k: nat)
    requires Inv(s) && (a.CancelJob? || a.CancelRun? || a.CancelReturns?)
    ensures Asks(s, k) <= Asks(Next(s, a), k)
  {
    hide Inv;
    hide Next;
    match a {
      case CancelJob => CancelAsks(s, k);
      case CancelRun(i) => CancelRunAsks(s, i);
      case CancelReturns(c, threw) => AnswerAsks(s, c, threw, k);
    }
  }

  // Any other answer moves no run and no session.
  lemma QuietAnswer(s: Sys, c: nat, threw: bool)
    requires !(c < |s.cancels| && s.cancels[c].JobAwaitAdapter? && s.cancels[c].run < |s.job.runs|)
    ensures var t := Next(s, CancelReturns(c, threw));
      && t == s.(cancels := t.cancels, queue := t.queue)
      && (t.queue == s.queue || t.queue == Queue.Enqueue(s.queue, s.job))
  {
  }

  lemma StepAsks(s: Sys, a: Action, k: nat)
    requires Inv(s) && !a.Restart? && k < |s.tasks|
    ensures Asks(s, k) <= Asks(Next(s, a), k)
  {
    LengthsAgree(s);
    if a.CancelJob? || a.CancelRun? || a.CancelReturns? {
      ClientAsks(s, a, k);
    } else if a.WorkerResumes? {
      WorkerClaims(s, a.w, a.enabled);
      var t := StepWorker(s, a.w, a.enabled);
      if t != s.(pool := t.pool) {
        BeginAsks(s, t.pool, s.pool.next, a.enabled, k);
      }
    } else if Background(a) {
      BackgroundTasks(s, a);
    } else if Resumed(a) == Some(k) {
      TaskAt(s, k);
      OwnAsks(s, a, k);
    } else {
      Elsewhere(s, a, k);
    }
    hide Inv;
    hide Next;
    hide StepWorker;
    hide Begin;
  }

  lemma BackgroundTasks(s: Sys, a: Action)
    requires Background(a)
    ensures Next(s, a).tasks == s.tasks && Next(s, a).job.runs == s.job.runs && Next(s, a).cancels == s.cancels
    ensures Next(s, a).job.cancelRequested == s.job.cancelRequested
  {
    hide Verdict;
    hide Queue.Enqueue;
    hide Queue.Advance;
    hide Queue.Release;
  }

  // ----- The frames of the calls -----

  // Every other step leaves the frame of call `c` where it is.
  lemma CallsStay(s: Sys, a: Action, c: nat)
    requires Inv(s) && c < |s.cancels| && !a.Restart? && !(a.CancelReturns? && a.c == c)
    ensures c < |Next(s, a).cancels| && Next(s, a).cancels[c] == s.cancels[c]
  {
    match a {
      case CancelJob => var stop := CancelBegins(s); hide Next;
      case CancelRun(i) => CancelRunAsks(s, i); hide Next;
      case CancelReturns(d, threw) => OtherAnswer(s, d, threw, c); hide Next;
      case WorkerResumes(w, enabled) => WorkerClaims(s, w, enabled);
        BeginCancels(s, StepWorker(s, w, enabled), enabled);
      case _ => if Background(a) { BackgroundTasks(s, a); } else { ResumedCalls(s, a); }
    }
    hide Inv;
    hide Swept;
    hide StepWorker;
  }

  lemma BeginCancels(s: Sys, t: Sys, enabled: bool)
    requires Claims(s, t, enabled)
    ensures t.cancels == s.cancels
  {
  }

  lemma ResumedCalls(s: Sys, a: Action)
    requires Resumed(a).Some?
    ensures Next(s, a).cancels == s.cancels
  {
    hide Queue.Enqueue;
    hide EndsOpen;
    hide Record;
  }

  lemma OtherAnswer(s: Sys, d: nat, threw: bool, c: nat)
    requires Inv(s) && c < |s.cancels| && d != c
    ensures var t := Next(s, CancelReturns(d, threw)); c < |t.cancels| && t.cancels[c] == s.cancels[c]
  {
    if d < |s.cancels| && s.cancels[d].JobAwaitAdapter? && s.cancels[d].run < |s.job.runs| {
      var stop := AnswerGoesOn(s, d, threw);
      hide Next;
    }
    hide Inv;
    hide Swept;
  }

  // What the frame of a cancelJob knows: which runs are behind it, and what its snapshot says.
  ghost predicate CallKnows(s: Sys, after: seq<Action>, c: nat) {
    var t := Exec(s, after);
    c < |t.cancels| &&
    match t.cancels[c]
    case JobAwaitAdapter(i) => i < |t.job.runs| && forall k :: 0 <= k <= i ==> Reached(s, after, k)
    case JobAwaitPersist(op) => (forall k :: 0 <= k < |t.job.runs| ==> Reached(s, after, k)) && Requests(t.queue, op)
    case CancelReturned =>
      && (forall k :: 0 <= k < |t.job.runs| ==> Reached(s, after, k))
      && exists op :: RequestSettled(t.queue, op)
    case _ => false
  }

  predicate Requests(q: Queue.Queue<Job>, op: nat) {
    op < |q.ops| && q.ops[op].snapshot.cancelRequested
  }

  predicate RequestSettled(q: Queue.Queue<Job>, op: nat) {
    Requests(q, op) && Queue.Settled(q.ops[op].phase)
  }

  lemma ReachedMore(s: Sys, after: seq<Action>, a: Action, k: nat)
    requires Reached(s, after, k) && Inv(Exec(s, after)) && !a.Restart? && k < |Exec(s, after).tasks|
    ensures Reached(s, after + [a], k)
  {
    hide Inv;
    hide Next;
    hide Exec;
    ExecThen(s, after, a);
    StepAsks(Exec(s, after), a, k);
    if p :| 0 < p <= |after| && TerminalAt(Exec(s, after[..p]), k) {
      assert (after + [a])[..p] == after[..p];
      assert TerminalAt(Exec(s, (after + [a])[..p]), k);
    }
  }

  lemma ReachedNow(s: Sys, after: seq<Action>, a: Action, k: nat)
    requires TerminalAt(Next(Exec(s, after), a), k)
    ensures Reached(s, after + [a], k)
  {
    hide Next;
    hide Exec;
    ExecThen(s, after, a);
    assert (after + [a])[..|after| + 1] == after + [a];
    assert TerminalAt(Exec(s, (after + [a])[..|after| + 1]), k);
  }

  // Every run that a turn of the sweep passed was reached, and so was the one it stopped at.
  lemma TurnReaches(s: Sys, after: seq<Action>, a: Action, u: Sys, cancels: seq<Cancel>, from: nat, stop: nat,
    frame: Cancel)
    requires Inv(Exec(s, after)) && !a.Restart?
      && Swept(u, Next(Exec(s, after), a).(cancels := cancels), from, stop, frame)
    requires u.tasks == Exec(s, after).tasks && |Exec(s, after).tasks| == |s.tasks|
    requires forall k :: 0 <= k < |s.tasks| ==> Asks(s, k) <= Asks(Exec(s, after), k)
    requires forall k :: 0 <= k < from ==> Reached(s, after, k)
    ensures forall k :: 0 <= k <= stop && k < |s.tasks| ==> Reached(s, after + [a], k)
  {
    hide Inv;
    hide Next;
    hide Exec;
    var t := Next(Exec(s, after), a);
    forall k | 0 <= k <= stop && k < |s.tasks|
      ensures Reached(s, after + [a], k)
    {
      if k < from {
        ReachedMore(s, after, a, k);
      } else if k < stop {
        PassedTerminal(u, t.(cancels := cancels), from, stop, frame, k);
        ReachedNow(s, after, a, k);
      } else {
        SweptAsks(u, t.(cancels := cancels), from, stop, frame, k);
        ExecThen(s, after, a);
      }
    }
  }

  lemma PassedTerminal(s: Sys, t: Sys, from: nat, stop: nat, frame: Cancel, k: nat)
    requires Swept(s, t, from, stop, frame) && from <= k < stop
    ensures TerminalAt(t, k)
  {
    assert RunSwept(s.job.runs[k], t.job.runs[k], true);
  }

  // A schedule along which the call is followed.
  ghost predicate Followed(s: Sys, after: seq<Action>, c: nat) {
    var t := Exec(s, after);
    && Inv(t) && |t.tasks| == |s.tasks| && t.job.cancelRequested
    && (forall k :: 0 <= k < |s.tasks| ==> Asks(s, k) <= Asks(t, k))
    && CallKnows(s, after, c)
  }

  lemma QueueOrderly(s: Sys)
    requires Inv(s)
    ensures ReturnsSettled(s.queue)
  {
    assert Queue.Linked(s.queue);
    hide Inv;
  }

  lemma RequestsKept(q: Queue.Queue<Job>, r: Queue.Queue<Job>)
    requires Extends(q, r)
    ensures forall op :: Requests(q, op) ==> Requests(r, op)
    ensures forall op :: RequestSettled(q, op) ==> RequestSettled(r, op)
  {
  }

  lemma AllReachedMore(s: Sys, after: seq<Action>, a: Action, last: nat)
    requires Inv(Exec(s, after)) && !a.Restart?
    requires forall k :: 0 <= k < last ==> Reached(s, after, k)
    requires last <= |Exec(s, after).tasks|
    ensures forall k :: 0 <= k < last ==> Reached(s, after + [a], k)
  {
    hide Inv;
    hide Reached;
    forall k | 0 <= k < last
      ensures Reached(s, after + [a], k)
    {
      ReachedMore(s, after, a, k);
    }
  }

  lemma RunCountKept(s: Sys, a: Action)
    requires Inv(s)
    ensures |Next(s, a).job.runs| == |Next(s, a).tasks| == |s.tasks| == |s.job.runs|
  {
    NextInv(s, a);
    LengthsAgree(s);
    LengthsAgree(Next(s, a));
    CountStep(s, a);
    hide Inv;
    hide Next;
  }

  // The call's own frame does not move.
  lemma KnowsMore(s: Sys, after: seq<Action>, a: Action, c: nat)
    requires Followed(s, after, c) && !a.Restart? && !(a.CancelReturns? && a.c == c)
    ensures CallKnows(s, after + [a], c)
  {
    hide Inv;
    hide Next;
    hide Exec;
    hide Reached;
    var t := Exec(s, after);
    ExecThen(s, after, a);
    CallsStay(t, a, c);
    QueueOrderly(t);
    OtherExtends(t, a);
    RequestsKept(t.queue, Next(t, a).queue);
    RunCountKept(t, a);
    match t.cancels[c] {
      case JobAwaitAdapter(i) => AllReachedMore(s, after, a, i + 1);
      case JobAwaitPersist(_) => AllReachedMore(s, after, a, |t.tasks|);
      case CancelReturned => AllReachedMore(s, after, a, |t.tasks|);
    }
  }

  // The adapter answered the call's frame.
  lemma KnowsAnswer(s: Sys, after: seq<Action>, threw: bool, c: nat)
    requires Followed(s, after, c) && Exec(s, after).cancels[c].JobAwaitAdapter?
    ensures CallKnows(s, after + [CancelReturns(c, threw)], c)
  {
    hide Inv;
    hide Next;
    hide Exec;
    hide Reached;
    var t, a := Exec(s, after), CancelReturns(c, threw);
    var i := t.cancels[c].run;
    ExecThen(s, after, a);
    RunCountKept(t, a);
    var stop := AnswerGoesOn(t, c, threw);
    var u := Next(t, a);
    TurnReaches(s, after, a, Noted(t, i, threw), t.cancels, i + 1, stop, u.cancels[c]);
    SweptFrame(Noted(t, i, threw), u.(cancels := t.cancels), i + 1, stop, u.cancels[c]);
    hide Swept;
  }

  // Where a turn leaves the frame.
  lemma SweptFrame(s: Sys, t: Sys, from: nat, stop: nat, frame: Cancel)
    requires Swept(s, t, from, stop, frame)
    ensures if stop < |s.job.runs| then frame == JobAwaitAdapter(stop)
      else frame.JobAwaitPersist? && stop == |s.job.runs| && (s.job.cancelRequested ==> Requests(t.queue, frame.op))
  {
  }

  // The write of the call's snapshot came back, or has not yet.
  lemma KnowsSaved(s: Sys, after: seq<Action>, threw: bool, c: nat)
    requires Followed(s, after, c) && !Exec(s, after).cancels[c].JobAwaitAdapter?
    ensures CallKnows(s, after + [CancelReturns(c, threw)], c)
  {
    hide Inv;
    hide Next;
    hide Exec;
    hide Reached;
    var t, a := Exec(s, after), CancelReturns(c, threw);
    ExecThen(s, after, a);
    RunCountKept(t, a);
    QueueOrderly(t);
    SavedAnswer(t, c, threw);
    if t.cancels[c].JobAwaitPersist? && Back(t, t.cancels[c].op) {
      assert RequestSettled(t.queue, t.cancels[c].op);
    }
    AllReachedMore(s, after, a, |t.tasks|);
  }

  lemma SavedAnswer(s: Sys, c: nat, threw: bool)
    requires c < |s.cancels| && (s.cancels[c].JobAwaitPersist? || s.cancels[c].CancelReturned?)
    ensures var t := Next(s, CancelReturns(c, threw));
      && t == s.(cancels := s.cancels[c := t.cancels[c]])
      && (t.cancels[c] == s.cancels[c] ||
          (t.cancels[c].CancelReturned? && s.cancels[c].JobAwaitPersist? && Back(s, s.cancels[c].op)))
  {
    assert s.cancels[c := s.cancels[c]] == s.cancels;
  }

  lemma CallStep(s: Sys, after: seq<Action>, a: Action, c: nat)
    requires Followed(s, after, c) && !a.Restart?
    ensures CallKnows(s, after + [a], c)
  {
    if a.CancelReturns? && a.c == c {
      if Exec(s, after).cancels[c].JobAwaitAdapter? {
        KnowsAnswer(s, after, a.threw, c);
      } else {
        KnowsSaved(s, after, a.threw, c);
      }
    } else {
      KnowsMore(s, after, a, c);
    }
    hide Inv;
    hide Exec;
    hide CallKnows;
  }

  lemma FollowedStep(s: Sys, after: seq<Action>, a: Action, c: nat)
    requires Followed(s, after, c) && !a.Restart?
    ensures Followed(s, after + [a], c)
  {
    hide Inv;
    hide Next;
    hide Exec;
    CallStep(s, after, a, c);
    hide CallKnows;
    var t := Exec(s, after);
    ExecThen(s, after, a);
    NextInv(t, a);
    RunCountKept(t, a);
    RequestKept(t, a);
    forall k | 0 <= k < |s.tasks|
      ensures Asks(s, k) <= Asks(Next(t, a), k)
    {
      StepAsks(t, a, k);
    }
    hide Asks;
  }

  lemma FollowedFirst(s: Sys)
    requires Inv(s)
    ensures Followed(s, [CancelJob], |s.cancels|)
  {
    hide Inv;
    hide Next;
    hide Reached;
    One(s, CancelJob);
    NextInv(s, CancelJob);
    RunCountKept(s, CancelJob);
    var t := Next(s, CancelJob);
    var u := s.(job := s.job.(cancelRequested := true));
    var stop := CancelBegins(s);
    var c := |s.cancels|;
    assert Exec(s, []) == s && [] + [CancelJob] == [CancelJob];
    TurnReaches(s, [], CancelJob, u, s.cancels, 0, stop, t.cancels[c]);
    SweptFrame(u, t.(cancels := s.cancels), 0, stop, t.cancels[c]);
    assert t.job.cancelRequested by { SweptJob(u, t.(cancels := s.cancels), 0, stop, t.cancels[c]); }
    hide Exec;
    hide Swept;
    forall k | 0 <= k < |s.tasks|
      ensures Asks(s, k) <= Asks(t, k)
    {
      StepAsks(s, CancelJob, k);
    }
    hide Asks;
  }

  lemma SweptJob(s: Sys, t: Sys, from: nat, stop: nat, frame: Cancel)
    requires Swept(s, t, from, stop, frame)
    ensures t.job.cancelRequested == s.job.cancelRequested
  {
  }

  lemma {:induction false} FollowedOn(s: Sys, after: seq<Action>, rest: seq<Action>, c: nat)
    requires Followed(s, after, c) && NoRestart(rest)
    ensures Followed(s, after + rest, c)
    decreases |rest|
  {
    hide Followed;
    if rest == [] {
      assert after + rest == after;
    } else {
      FollowedStep(s, after, rest[0], c);
      assert NoRestart(rest[1..]);
      FollowedOn(s, after + [rest[0]], rest[1..], c);
      assert after + [rest[0]] + rest[1..] == after + rest;
    }
  }

  // Every cancelJob, in every reachable state, with any answers and any interleaving: when its call
  // has come to the write of its snapshot, each run was terminal at some moment since, or its
  // adapter was asked to cancel; while it waits for an adapter the same holds of every run up to
  // that one.  When it returns, a snapshot that shows the request is on disk or has failed.
  lemma CancelJobReachesEveryRun(n: nat, limit: int, before: seq<Action>, after: seq<Action>)
    requires n >= 1 && limit >= 1 && NoRestart(after)
    ensures var s := Exec(Init(n, limit), before); CallKnows(s, [CancelJob] + after, |s.cancels|)
  {
    Reachable(n, limit, before);
    var s := Exec(Init(n, limit), before);
    hide Inv;
    hide Exec;
    FollowedFirst(s);
    FollowedOn(s, [CancelJob], after, |s.cancels|);
    hide CallKnows;
  }

  // ----- Flags -----

  // This step is a cancelRun of run `i` that found its session.
  predicate RunCall(s: Sys, a: Action, i: nat) {
    a.CancelRun? && a.i == i && i in s.active
  }

  // This step is an error of the adapter of run `i`, asked by a cancelJob.
  predicate ThrownAnswer(s: Sys, a: Action, i: nat) {
    a.CancelReturns? && a.threw && a.c < |s.cancels| && s.cancels[a.c] == JobAwaitAdapter(i)
  }

  predicate EverCalled(s: Sys, actions: seq<Action>, i: nat)
    decreases |actions|
  {
    actions != [] && (RunCall(s, actions[0], i) || EverCalled(Next(s, actions[0]), actions[1..], i))
  }

  predicate EverThrew(s: Sys, actions: seq<Action>, i: nat)
    decreases |actions|
  {
    actions != [] && (ThrownAnswer(s, actions[0], i) || EverThrew(Next(s, actions[0]), actions[1..], i))
  }

  predicate SameFlags(s: Sys, t: Sys, i: nat) {
    && InRange(s, i) && InRange(t, i) && t.job.cancelRequested == s.job.cancelRequested
    && t.job.runs[i].cancelRequested == s.job.runs[i].cancelRequested
    && t.job.runs[i].cancelError == s.job.runs[i].cancelError
  }

  lemma PersistFlags(s: Sys, i: nat)
    requires InRange(s, i)
    ensures SameFlags(s, AfterPersist(s, i), i)
  {
    hide Catch;
    hide Finally;
    CatchFlags(s, i, FromDisk);
    if s.tasks[i].pc.AwaitCatchPersist? && Back(s, s.tasks[i].pc.op) {
      FinallyFlags(s, i, !Saved(s, s.tasks[i].pc.op));
    }
  }

  lemma SetupFlags(s: Sys, i: nat, health: Health, ok: bool)
    requires InRange(s, i)
    ensures SameFlags(s, AfterHealth(s, i, health), i) && SameFlags(s, AfterSession(s, i, ok), i)
    ensures SameFlags(s, Catch(s, i, FromDisk), i) && SameFlags(s, FinalPersist(s, i, ok), i)
  {
    hide Ticket;
    hide Queue.Enqueue;
  }

  lemma StreamFlags(s: Sys, i: nat, step: StreamStep, artifact: ArtifactStep)
    requires InRange(s, i)
    ensures SameFlags(s, AfterStream(s, i, step), i) && SameFlags(s, AfterArtifact(s, i, artifact), i)
  {
    hide EndsOpen;
    hide Ticket;
    hide Queue.Enqueue;
    hide Catch;
    hide Finally;
    CatchFlags(s, i, FromAdapter);
    CatchFlags(s, i, ProtocolMismatch);
    FinallyFlags(s, i, false);
  }

  lemma CatchFlags(s: Sys, i: nat, code: ErrorCode)
    requires InRange(s, i)
    ensures SameFlags(s, Catch(s, i, code), i)
  {
    hide Queue.Enqueue;
  }

  lemma FinallyFlags(s: Sys, i: nat, rethrow: bool)
    requires InRange(s, i)
    ensures SameFlags(s, Finally(s, i, rethrow), i) && SameFlags(s, FinalPersist(s, i, rethrow), i)
  {
    hide Queue.Enqueue;
  }

  lemma OwnFlags(s: Sys, a: Action, i: nat)
    requires InRange(s, i) && Resumed(a) == Some(i)
    ensures SameFlags(s, Next(s, a), i)
  {
    assert SameFlags(s, s, i);
    hide SameFlags;
    hide AfterPersist;
    hide AfterHealth;
    hide AfterSession;
    hide AfterStream;
    hide AfterArtifact;
    hide Catch;
    hide FinalPersist;
    match a {
      case PersistReturns(_) => PersistFlags(s, i);
      case HealthReturns(_, health) => SetupFlags(s, i, health, true);
      case SessionReturns(_, ok) => SetupFlags(s, i, Healthy, ok);
      case StreamReturns(_, step) => StreamFlags(s, i, step, NoMore);
      case IteratorReturns(_) => SetupFlags(s, i, Healthy, true);
      case ArtifactReturns(_, artifact) => StreamFlags(s, i, Ends, artifact);
      case CloseReturns(_) => if s.tasks[i].pc.AwaitClose? { SetupFlags(s, i, Healthy, s.tasks[i].pc.rethrow); }
    }
  }

  lemma BeginFlags(s: Sys, p: Pool.Pool, k: nat, enabled: bool, i: nat)
    requires InRange(s, k) && InRange(s, i)
    ensures SameFlags(s, Begin(s.(pool := p), k, enabled), i)
  {
    hide Queue.Enqueue;
  }

  lemma SweptFlags(s: Sys, t: Sys, from: nat, stop: nat, frame: Cancel, i: nat)
    requires Swept(s, t, from, stop, frame) && InRange(s, i)
    ensures SameFlags(s, t, i)
  {
    assert RunSwept(s.job.runs[i], t.job.runs[i], from <= i < stop);
  }

  // What one step does to the flags of the job and of one run.
  predicate FlagsMove(s: Sys, t: Sys, a: Action, i: nat) {
    && InRange(s, i) && InRange(t, i)
    && (t.job.cancelRequested <==> s.job.cancelRequested || a.CancelJob?)
    && (t.job.runs[i].cancelRequested <==> s.job.runs[i].cancelRequested || RunCall(s, a, i))
    && (t.job.runs[i].cancelError <==> s.job.runs[i].cancelError || ThrownAnswer(s, a, i))
  }

  lemma AnswerFlags(s: Sys, c: nat, threw: bool, i: nat)
    requires Inv(s) && InRange(s, i)
    ensures FlagsMove(s, Next(s, CancelReturns(c, threw)), CancelReturns(c, threw), i)
  {
    hide Inv;
    hide Next;
    hide Swept;
    if c < |s.cancels| && s.cancels[c].JobAwaitAdapter? && s.cancels[c].run < |s.job.runs| {
      var stop := AnswerGoesOn(s, c, threw);
      var k, t := s.cancels[c].run, Next(s, CancelReturns(c, threw));
      SweptFlags(Noted(s, k, threw), t.(cancels := s.cancels), k + 1, stop, t.cancels[c], i);
    } else {
      QuietAnswer(s, c, threw);
    }
  }

  lemma CancelFlags(s: Sys, i: nat)
    requires Inv(s) && InRange(s, i)
    ensures FlagsMove(s, Next(s, CancelJob), CancelJob, i)
  {
    hide Inv;
    hide Next;
    hide Swept;
    var stop := CancelBegins(s);
    var t := Next(s, CancelJob);
    SweptFlags(s.(job := s.job.(cancelRequested := true)), t.(cancels := s.cancels), 0, stop, t.cancels[|s.cancels|],
      i);
  }

  lemma WorkerFlags(s: Sys, w: nat, enabled: bool, i: nat)
    requires Inv(s) && InRange(s, i)
    ensures SameFlags(s, StepWorker(s, w, enabled), i)
  {
    hide Inv;
    WorkerClaims(s, w, enabled);
    var t := StepWorker(s, w, enabled);
    hide StepWorker;
    if t != s.(pool := t.pool) {
      BeginFlags(s, t.pool, s.pool.next, enabled, i);
    }
    hide Begin;
  }

  lemma QuietFlags(s: Sys, a: Action, i: nat)
    requires Inv(s) && InRange(s, i) && (a.WorkerResumes? || Background(a) || Resumed(a).Some?)
    ensures SameFlags(s, Next(s, a), i)
  {
    hide Inv;
    hide StepWorker;
    if a.WorkerResumes? {
      WorkerFlags(s, a.w, a.enabled, i);
    } else if Background(a) {
      BackgroundTasks(s, a);
      hide Next;
    } else if Resumed(a) == Some(i) {
      OwnFlags(s, a, i);
      hide Next;
    } else {
      Elsewhere(s, a, i);
      hide Next;
    }
  }

  lemma StepFlags(s: Sys, a: Action, i: nat)
    requires Inv(s) && InRange(s, i) && !a.Restart?
    ensures FlagsMove(s, Next(s, a), a, i)
  {
    hide Inv;
    hide Next;
    match a {
      case CancelJob => CancelFlags(s, i);
      case CancelRun(k) => CancelRunAsks(s, k);
      case CancelReturns(c, threw) => AnswerFlags(s, c, threw, i);
      case _ => QuietFlags(s, a, i);
    }
  }

  lemma {:induction false} ExecFlags(s: Sys, actions: seq<Action>, i: nat)
    requires Inv(s) && InRange(s, i)
    ensures var t := Exec(s, actions);
      !t.executor.Reloaded? ==>
      && InRange(t, i)
      && (t.job.cancelRequested <==> s.job.cancelRequested || CancelJob in actions)
      && (t.job.runs[i].cancelRequested <==> s.job.runs[i].cancelRequested || EverCalled(s, actions, i))
      && (t.job.runs[i].cancelError <==> s.job.runs[i].cancelError || EverThrew(s, actions, i))
    decreases |actions|
  {
    hide Inv;
    hide Next;
    hide RunCall;
    hide ThrownAnswer;
    if actions != [] {
      var a := actions[0];
      assert CancelJob in actions <==> a == CancelJob || CancelJob in actions[1..];
      NextInv(s, a);
      if s.executor.Reloaded? || (a.Restart? && s.queue.disk.Some?) {
        ReloadedStays(s, a);
        ReloadedForever(Next(s, a), actions[1..]);
      } else {
        if a.Restart? {
          RestartHeard(s, i);
          NoCall(s, i);
        } else {
          StepFlags(s, a, i);
        }
        ExecFlags(Next(s, a), actions[1..], i);
      }
    }
  }

  lemma NoCall(s: Sys, i: nat)
    ensures !RunCall(s, Restart, i) && !ThrownAnswer(s, Restart, i)
  {
  }

  lemma {:induction false} ReloadedForever(s: Sys, actions: seq<Action>)
    requires s.executor.Reloaded?
    ensures Exec(s, actions).executor.Reloaded?
    decreases |actions|
  {
    hide Next;
    if actions != [] {
      ReloadedStays(s, actions[0]);
      ReloadedForever(Next(s, actions[0]), actions[1..]);
    }
  }

  // The flags show exactly the calls that were made: the job's a cancelJob, a run's a cancelRun that
  // found its session, and its error an adapter that threw when a cancelJob asked it.
  lemma FlagsFollowCalls(n: nat, limit: int, actions: seq<Action>, i: nat)
    requires n >= 1 && limit >= 1 && i < n && !Exec(Init(n, limit), actions).executor.Reloaded?
    ensures var s := Exec(Init(n, limit), actions);
      && i < |s.job.runs|
      && (s.job.cancelRequested <==> CancelJob in actions)
      && (s.job.runs[i].cancelRequested <==> EverCalled(Init(n, limit), actions, i))
      && (s.job.runs[i].cancelError <==> EverThrew(Init(n, limit), actions, i))
  {
    InitInv(n, limit);
    InitFlags(n, limit, i);
    hide Inv;
    hide Init;
    ExecFlags(Init(n, limit), actions, i);
    hide Exec;
    hide EverCalled;
    hide EverThrew;
  }

  lemma InitFlags(n: nat, limit: int, i: nat)
    requires i < n
    ensures var s := Init(n, limit);
      InRange(s, i) && !s.job.cancelRequested && !s.job.runs[i].cancelRequested && !s.job.runs[i].cancelError
  {
  }

  // ----- One cancelRun -----

  predicate FlagShown(q: Queue.Queue<Job>, op: nat, i: nat) {
    op < |q.ops| && i < |q.ops[op].snapshot.runs| && q.ops[op].snapshot.runs[i].cancelRequested
  }

  predicate FlagSettled(q: Queue.Queue<Job>, op: nat, i: nat) {
    FlagShown(q, op, i) && Queue.Settled(q.ops[op].phase)
  }

  // What is known of the frame of a cancelRun: it asked, and it saves unless the adapter threw.
  ghost predicate RunCallKnows(s: Sys, c: nat, i: nat, threw: bool) {
    && InRange(s, i) && s.job.runs[i].cancelRequested && c < |s.cancels|
    && match s.cancels[c]
       case RunAwaitAdapter(k) => k == i
       case RunAwaitPersist(op) => FlagShown(s.queue, op, i)
       case CancelReturned => threw || exists op :: FlagSettled(s.queue, op, i)
       case _ => false
  }

  lemma FlagsKept(q: Queue.Queue<Job>, r: Queue.Queue<Job>, i: nat)
    requires Extends(q, r)
    ensures forall op :: FlagShown(q, op, i) ==> FlagShown(r, op, i)
    ensures forall op :: FlagSettled(q, op, i) ==> FlagSettled(r, op, i)
  {
  }

  lemma RunCallStays(s: Sys, a: Action, c: nat, i: nat, threw: bool)
    requires Inv(s) && RunCallKnows(s, c, i, threw) && !a.Restart? && !(a.CancelReturns? && a.c == c)
    ensures RunCallKnows(Next(s, a), c, i, threw)
  {
    hide Inv;
    hide Next;
    CallsStay(s, a, c);
    QueueOrderly(s);
    OtherExtends(s, a);
    FlagsKept(s.queue, Next(s, a).queue, i);
    StepFlags(s, a, i);
  }

  lemma RunCallAnswered(s: Sys, c: nat, threw: bool, i: nat, before: bool)
    requires Inv(s) && RunCallKnows(s, c, i, before)
    ensures RunCallKnows(Next(s, CancelReturns(c, threw)), c, i, before || threw)
  {
    QueueOrderly(s);
    hide Inv;
    if s.cancels[c].RunAwaitPersist? && Back(s, s.cancels[c].op) {
      assert FlagSettled(s.queue, s.cancels[c].op, i);
    }
  }

  // The adapter answered a cancelRun: the job is saved as it is, or its error goes straight to the
  // caller and nothing is saved.
  lemma RunAnswerSaves(s: Sys, c: nat, threw: bool)
    requires c < |s.cancels| && s.cancels[c].RunAwaitAdapter?
    ensures var t := Next(s, CancelReturns(c, threw));
      t == if threw then s.(cancels := s.cancels[c := CancelReturned])
        else s.(cancels := s.cancels[c := RunAwaitPersist(|s.queue.ops|)], queue := Queue.Enqueue(s.queue, s.job))
  {
  }

  predicate Threw(actions: seq<Action>, c: nat) {
    CancelReturns(c, true) in actions
  }

  lemma {:induction false} RunCallFollowed(s: Sys, actions: seq<Action>, c: nat, i: nat, threw: bool)
    requires Inv(s) && RunCallKnows(s, c, i, threw) && NoRestart(actions)
    ensures RunCallKnows(Exec(s, actions), c, i, threw || Threw(actions, c))
    decreases |actions|
  {
    hide Inv;
    hide Next;
    hide RunCallKnows;
    if actions != [] {
      var a := actions[0];
      NextInv(s, a);
      assert NoRestart(actions[1..]);
      assert Threw(actions, c) <==> a == CancelReturns(c, true) || Threw(actions[1..], c);
      if a.CancelReturns? && a.c == c {
        RunCallAnswered(s, c, a.threw, i, threw);
        RunCallFollowed(Next(s, a), actions[1..], c, i, threw || a.threw);
      } else {
        RunCallStays(s, a, c, i, threw);
        RunCallFollowed(Next(s, a), actions[1..], c, i, threw);
      }
    }
  }

  // Every cancelRun of a run in activeRuns asks its adapter once and flags the run for good; the
  // call returns only once a snapshot with the flag has settled, unless the adapter threw.  Without
  // an entry in activeRuns it does nothing at all.
  lemma CancelRunIsSaved(n: nat, limit: int, before: seq<Action>, after: seq<Action>, i: nat)
    requires n >= 1 && limit >= 1 && NoRestart(after)
    ensures var s := Exec(Init(n, limit), before); var t := Next(s, CancelRun(i));
      if i in s.active then
        Asks(t, i) == Asks(s, i) + 1 && RunCallKnows(Exec(t, after), |s.cancels|, i, Threw(after, |s.cancels|))
      else t == s
  {
    Reachable(n, limit, before);
    var s := Exec(Init(n, limit), before);
    hide Inv;
    hide Exec;
    CancelRunAsks(s, i);
    var t := Next(s, CancelRun(i));
    NextInv(s, CancelRun(i));
    hide Next;
    if i in s.active {
      assert RunCallKnows(t, |s.cancels|, i, false);
      RunCallFollowed(t, after, |s.cancels|, i, false);
    }
    hide RunCallKnows;
  }
}
