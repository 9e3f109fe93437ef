// Loading a directory of job snapshots after a restart (runtime.mjs 276-310).
module Recovery {
  import Wrappers
  import opened GatewayModel

  // Snapshot(id) is the name `<id>.json` that #persist writes to; Copy stands for every other
  // name that ends in .json.
  datatype Name = Snapshot(id: nat) | Copy(tag: nat)

  // A file is skipped when it does not parse or holds no job_id and runs.
  datatype File = Malformed | Stored(id: nat, job: Job)

  type Directory = map<Name, File>

  // One turn of the loop; `ok` says whether a repair, if one is written, reaches the disk.
  datatype Entry = Entry(name: Name, ok: bool)

  // The directory, the jobs in memory, and the ids written so far.
  datatype Loading = Loading(dir: Directory, jobs: map<nat, Job>, writes: seq<nat>)

  // The file is read as it is now and its repair is awaited before the next file is read; a
  // failed write is swallowed with the job already registered.
  function Visit(s: Loading, entry: Entry): Loading {
    if entry.name !in s.dir then s
    else
      match s.dir[entry.name]
      case Malformed => s
      case Stored(id, job) =>
        var t := s.(jobs := s.jobs[id := Repair(job)]);
        if NeedsRepair(job) && entry.ok
        then t.(dir := s.dir[Snapshot(id) := Stored(id, Repair(job))], writes := s.writes + [id]) else t
  }

  // A crash leaves the directory of a shorter list of entries.
  function Load(dir: Directory, entries: seq<Entry>): Loading {
    if entries == [] then Loading(dir, map[], [])
      else Visit(Load(dir, entries[..|entries| - 1]), entries[|entries| - 1])
  }

  lemma RepairOnce(job: Job)
    ensures !NeedsRepair(Repair(job))
    ensures Repair(Repair(job)) == Repair(job)
  {
  }

  // ----- Any directory -----

  // The job a file holds, or the repair of it.
  predicate Same(job: Job, original: Job) {
    job == original || job == Repair(original)
  }

  // Every file ever found was saved under its id before the load began, or is the repair of such.
  lemma {:induction false} FileOrigin(dir: Directory, entries: seq<Entry>, name: Name) returns (origin: Name)
    requires name in Load(dir, entries).dir && Load(dir, entries).dir[name].Stored?
    ensures origin in dir && dir[origin].Stored? && dir[origin].id == Load(dir, entries).dir[name].id
    ensures Same(Load(dir, entries).dir[name].job, dir[origin].job)
  {
    if entries == [] {
      origin := name;
    } else {
      var before, last := Load(dir, entries[..|entries| - 1]), entries[|entries| - 1];
      if Load(dir, entries).dir == before.dir || name != Snapshot(before.dir[last.name].id) {
        origin := FileOrigin(dir, entries[..|entries| - 1], name);
      } else {
        origin := FileOrigin(dir, entries[..|entries| - 1], last.name);
        RepairOnce(dir[origin].job);
      }
    }
  }

  lemma {:induction false} JobOrigin(dir: Directory, entries: seq<Entry>, id: nat) returns (origin: Name)
    requires id in Load(dir, entries).jobs
    ensures origin in dir && dir[origin].Stored? && dir[origin].id == id
    ensures Load(dir, entries).jobs[id] == Repair(dir[origin].job)
  {
    var before, last := Load(dir, entries[..|entries| - 1]), entries[|entries| - 1];
    if last.name in before.dir && before.dir[last.name].Stored? && before.dir[last.name].id == id {
      origin := FileOrigin(dir, entries[..|entries| - 1], last.name);
      RepairOnce(dir[origin].job);
    } else {
      origin := JobOrigin(dir, entries[..|entries| - 1], id);
    }
  }

  // The process died before the job, or one of its runs, was over.
  predicate Interrupted(saved: Job) {
    saved.status == InProgress || exists k :: 0 <= k < |saved.runs| && Active(saved.runs[k].state)
  }

  // Whatever the names, the order and the failed writes: nothing is left in progress; runs outside
  // the three active states keep every field and so do the flags of the job; an interrupted job is
  // FAILED and marked as recovered, any other is taken over as it was saved.
  lemma LoadedIsRepaired(dir: Directory, entries: seq<Entry>, id: nat) returns (origin: Name)
    requires id in Load(dir, entries).jobs
    ensures origin in dir && dir[origin].Stored? && dir[origin].id == id
    ensures var job, saved := Load(dir, entries).jobs[id], dir[origin].job;
      && job.status != InProgress
      && |job.runs| == |saved.runs|
      && (forall k :: 0 <= k < |job.runs| ==> !Active(job.runs[k].state))
      && (forall k :: 0 <= k < |job.runs| && !Active(saved.runs[k].state) ==> job.runs[k] == saved.runs[k])
      && (forall k :: 0 <= k < |job.runs| && Active(saved.runs[k].state) ==>
        job.runs[k] == Failed(saved.runs[k], GatewayRestarted))
      && job.cancelRequested == saved.cancelRequested
      && job.error == saved.error && job.persistenceError == saved.persistenceError
      && (if Interrupted(saved) then job.status == FAILED_JOB && job.recovered else job == saved)
  {
    origin := JobOrigin(dir, entries, id);
    hide Load;
  }

  // ----- Every file named after its job -----

  predicate WellNamed(dir: Directory) {
    forall name :: name in dir && dir[name].Stored? ==> name == Snapshot(dir[name].id)
  }

  predicate Visited(entries: seq<Entry>, name: Name) {
    exists k :: 0 <= k < |entries| && entries[k].name == name
  }

  predicate Saved(dir: Directory, id: nat) {
    Snapshot(id) in dir && dir[Snapshot(id)].Stored?
  }

  // Each file is where it was and holds its own job, as saved or repaired.
  ghost predicate KeepsFiles(dir: Directory, after: Directory) {
    && after.Keys == dir.Keys
    && forall name :: name in dir ==>
        match dir[name]
        case Malformed => after[name] == Malformed
        case Stored(id, job) => after[name].Stored? && after[name].id == id && Same(after[name].job, job)
  }

  // The jobs are the repairs of the files visited.
  ghost predicate HoldsVisited(dir: Directory, entries: seq<Entry>, jobs: map<nat, Job>) {
    && (forall id :: id in jobs <==> Saved(dir, id) && Visited(entries, Snapshot(id)))
    && (forall id :: id in jobs ==> jobs[id] == Repair(dir[Snapshot(id)].job))
  }

  lemma VisitedMore(entries: seq<Entry>, name: Name)
    requires entries != []
    ensures Visited(entries, name) <==> Visited(entries[..|entries| - 1], name) || entries[|entries| - 1].name == name
  {
    var n := |entries| - 1;
    if Visited(entries[..n], name) {
      var k :| 0 <= k < n && entries[..n][k].name == name;
      assert entries[k].name == name;
    }
    if Visited(entries, name) && entries[n].name != name {
      var k :| 0 <= k < |entries| && entries[k].name == name;
      assert entries[..n][k].name == name;
    }
  }

  lemma VisitKeeps(dir: Directory, s: Loading, entry: Entry)
    requires WellNamed(dir) && KeepsFiles(dir, s.dir)
    ensures KeepsFiles(dir, Visit(s, entry).dir)
  {
    hide Repair;
    hide NeedsRepair;
    if entry.name in dir && dir[entry.name].Stored? {
      RepairOnce(dir[entry.name].job);
      assert entry.name == Snapshot(dir[entry.name].id);
    }
    assert s.dir.Keys == dir.Keys;
  }

  lemma VisitHolds(dir: Directory, s: Loading, entries: seq<Entry>)
    requires WellNamed(dir) && KeepsFiles(dir, s.dir) && entries != []
    requires HoldsVisited(dir, entries[..|entries| - 1], s.jobs)
    ensures HoldsVisited(dir, entries, Visit(s, entries[|entries| - 1]).jobs)
  {
    hide Repair;
    hide NeedsRepair;
    var entry := entries[|entries| - 1];
    forall id
      ensures Visited(entries, Snapshot(id))
        <==> Visited(entries[..|entries| - 1], Snapshot(id)) || entry.name == Snapshot(id)
    {
      VisitedMore(entries, Snapshot(id));
    }
    hide Visited;
    assert s.dir.Keys == dir.Keys;
    if entry.name in dir && dir[entry.name].Stored? {
      RepairOnce(dir[entry.name].job);
      assert entry.name == Snapshot(dir[entry.name].id);
    }
  }

  lemma {:induction false} WellNamedLoad(dir: Directory, entries: seq<Entry>)
    requires WellNamed(dir)
    ensures KeepsFiles(dir, Load(dir, entries).dir) && HoldsVisited(dir, entries, Load(dir, entries).jobs)
  {
    if entries != [] {
      WellNamedLoad(dir, entries[..|entries| - 1]);
      VisitKeeps(dir, Load(dir, entries[..|entries| - 1]), entries[|entries| - 1]);
      VisitHolds(dir, Load(dir, entries[..|entries| - 1]), entries);
    }
    hide Visit;
  }

  lemma KeptIsWellNamed(dir: Directory, after: Directory)
    requires WellNamed(dir) && KeepsFiles(dir, after)
    ensures WellNamed(after)
    ensures forall id :: Saved(after, id) <==> Saved(dir, id)
    ensures forall id :: Saved(dir, id) ==> Repair(after[Snapshot(id)].job) == Repair(dir[Snapshot(id)].job)
  {
    forall id | Saved(dir, id)
      ensures Repair(after[Snapshot(id)].job) == Repair(dir[Snapshot(id)].job)
    {
      RepairOnce(dir[Snapshot(id)].job);
    }
    hide Repair;
    assert forall name :: name in after ==> name in dir by {
      assert after.Keys == dir.Keys;
    }
  }

  // With every file named after its job: whatever an earlier load did before it was interrupted,
  // with any of its writes failing, the next load finds the jobs it would have found without it.
  lemma RepairSurvivesCrash(dir: Directory, interrupted: seq<Entry>, entries: seq<Entry>)
    requires WellNamed(dir)
    ensures Load(Load(dir, interrupted).dir, entries).jobs == Load(dir, entries).jobs
  {
    var after := Load(dir, interrupted).dir;
    WellNamedLoad(dir, interrupted);
    KeptIsWellNamed(dir, after);
    WellNamedLoad(after, entries);
    WellNamedLoad(dir, entries);
    hide Load;
    hide Repair;
    hide WellNamed;
    hide KeepsFiles;
    hide Visited;
  }

  // ----- Any names -----

  predicate Clean(dir: Directory, name: Name) {
    name in dir && dir[name].Stored? ==> !NeedsRepair(dir[name].job)
  }

  // A file to be repaired under a name that is not its job's: the repair goes elsewhere.
  predicate Misnamed(dir: Directory, name: Name) {
    !Clean(dir, name) && name != Snapshot(dir[name].id)
  }

  // Reading a misnamed file leaves it where it is, and only another misnamed file can replace it.
  lemma VisitLeavesMisnamed(s: Loading, entry: Entry, name: Name) returns (left: Name)
    requires Misnamed(s.dir, name)
    ensures Misnamed(Visit(s, entry).dir, left)
  {
    left := if Misnamed(s.dir, entry.name) then entry.name else name;
    hide Repair;
    hide NeedsRepair;
  }

  lemma {:induction false} LoadLeavesMisnamed(dir: Directory, entries: seq<Entry>, name: Name) returns (left: Name)
    requires Misnamed(dir, name)
    ensures Misnamed(Load(dir, entries).dir, left)
  {
    left := name;
    if entries != [] {
      var before := LoadLeavesMisnamed(dir, entries[..|entries| - 1], name);
      left := VisitLeavesMisnamed(Load(dir, entries[..|entries| - 1]), entries[|entries| - 1], before);
    }
    hide Visit;
    hide Misnamed;
  }

  // The same names, none misnamed, and everything visited is clean.
  ghost predicate Progressed(dir: Directory, entries: seq<Entry>, after: Directory) {
    && after.Keys == dir.Keys
    && (forall name :: !Misnamed(after, name))
    && (forall name :: Visited(entries, name) ==> Clean(after, name))
  }

  lemma VisitCleans(s: Loading, entry: Entry)
    requires entry.ok && !Misnamed(s.dir, entry.name)
    ensures var after := Visit(s, entry).dir;
      && after.Keys == s.dir.Keys && Clean(after, entry.name)
      && forall name :: name != entry.name ==> name !in after || after[name] == s.dir[name]
  {
    if !Clean(s.dir, entry.name) {
      RepairOnce(s.dir[entry.name].job);
    }
    hide Repair;
    hide NeedsRepair;
  }

  lemma VisitProgresses(dir: Directory, s: Loading, entries: seq<Entry>)
    requires entries != [] && entries[|entries| - 1].ok
    requires Progressed(dir, entries[..|entries| - 1], s.dir)
    ensures Progressed(dir, entries, Visit(s, entries[|entries| - 1]).dir)
  {
    var entry := entries[|entries| - 1];
    VisitCleans(s, entry);
    hide Visit;
    hide NeedsRepair;
    var after := Visit(s, entry).dir;
    forall name
      ensures !Misnamed(after, name) && (Visited(entries, name) ==> Clean(after, name))
    {
      VisitedMore(entries, name);
      assert !Misnamed(s.dir, name);
      assert name in after <==> name in s.dir;
    }
    hide Visited;
  }

  lemma {:induction false} LoadProgresses(dir: Directory, entries: seq<Entry>)
    requires (forall name :: !Misnamed(dir, name)) && forall k :: 0 <= k < |entries| ==> entries[k].ok
    ensures Progressed(dir, entries, Load(dir, entries).dir)
  {
    if entries != [] {
      LoadProgresses(dir, entries[..|entries| - 1]);
      VisitProgresses(dir, Load(dir, entries[..|entries| - 1]), entries);
    }
    hide Visit;
    hide Misnamed;
    hide Clean;
  }

  // For every directory, whatever its names and in whatever order it is read: a load that visits
  // every file and whose writes all succeed leaves nothing to repair if and only if each file
  // that needed repair was named after the job it holds.
  lemma RepairIsComplete(dir: Directory, entries: seq<Entry>)
    requires forall k :: 0 <= k < |entries| ==> entries[k].ok
    requires forall name :: name in dir ==> Visited(entries, name)
    ensures (forall name :: Clean(Load(dir, entries).dir, name)) <==> (forall name :: !Misnamed(dir, name))
  {
    var after := Load(dir, entries).dir;
    if name :| Misnamed(dir, name) {
      var left := LoadLeavesMisnamed(dir, entries, name);
      assert !Clean(after, left);
    } else {
      LoadProgresses(dir, entries);
      assert forall name :: name in after ==> name in dir;
    }
    hide Load;
    hide NeedsRepair;
    hide Visited;
  }

  // With nothing to repair, a load writes nothing.
  lemma {:induction false} CleanLoadWritesNothing(dir: Directory, entries: seq<Entry>)
    requires forall name :: Clean(dir, name)
    ensures Load(dir, entries).dir == dir && Load(dir, entries).writes == []
  {
    if entries != [] {
      CleanLoadWritesNothing(dir, entries[..|entries| - 1]);
      assert Clean(dir, entries[|entries| - 1].name);
    }
    hide NeedsRepair;
    hide Repair;
  }

  // The naming cannot be dropped: a copy of an earlier snapshot that is read first replaces a
  // finished job's file, the job is shown FAILED, and the next load writes once more.
  lemma CopyReplacesJob(finished: Job, earlier: Job)
    requires !NeedsRepair(finished) && finished.status == COMPLETED && NeedsRepair(earlier)
    ensures var dir := map[Snapshot(0) := Stored(0, finished), Copy(0) := Stored(0, earlier)];
      var entries := [Entry(Copy(0), true), Entry(Snapshot(0), true)];
      var first := Load(dir, entries);
      && 0 in first.jobs && first.jobs[0].status == FAILED_JOB
      && Snapshot(0) in first.dir && first.dir[Snapshot(0)] == Stored(0, Repair(earlier))
      && Load(first.dir, entries).writes == [0]
      && Misnamed(dir, Copy(0))
  {
    var dir := map[Snapshot(0) := Stored(0, finished), Copy(0) := Stored(0, earlier)];
    var a, b := Entry(Copy(0), true), Entry(Snapshot(0), true);
    RepairOnce(earlier);
    TwoVisits(dir, a, b);
    var first := Load(dir, [a, b]);
    assert first.dir == dir[Snapshot(0) := Stored(0, Repair(earlier))];
    TwoVisits(first.dir, a, b);
    hide Load;
  }

  lemma TwoVisits(dir: Directory, a: Entry, b: Entry)
    ensures Load(dir, [a, b]) == Visit(Visit(Loading(dir, map[], []), a), b)
  {
    hide Visit;
    assert [a, b][..1] == [a] && [a][..0] == [];
    assert Load(dir, [a]) == Visit(Load(dir, []), a);
    assert Load(dir, [a, b]) == Visit(Load(dir, [a]), b);
  }

  // The loop over one job's runs: in place, remembering whether anything was repaired.
  method RepairJob(job: Job) returns (repaired: Job, recovered: bool)
    ensures repaired == Repair(job)
    ensures recovered == NeedsRepair(job)
  {
    var runs := job.runs;
    recovered := false;
    var i := 0;
    while i < |runs|
      invariant 0 <= i <= |runs| == |job.runs|
      invariant forall k :: 0 <= k < i ==> runs[k] == RepairRun(job.runs[k])
      invariant forall k :: i <= k < |runs| ==> runs[k] == job.runs[k]
      invariant recovered <==> exists k :: 0 <= k < i && Active(job.runs[k].state)
    {
      if Active(runs[i].state) {
        runs := runs[i := runs[i].(state := FAILED, error := Wrappers.Some(GatewayRestarted))];
        recovered := true;
      }
      i := i + 1;
    }
    repaired := job.(runs := runs);
    if job.status == InProgress || recovered {
      repaired := repaired.(status := FAILED_JOB, recovered := true);
      recovered := true;
    } else {
      assert runs == job.runs;
    }
    assert repaired == Repair(job);
  }

  // The loop over the directory, which is rewritten while it is read.
  method LoadPersistedJobs(dir: Directory, entries: seq<Entry>) returns (s: Loading)
    ensures s == Load(dir, entries)
  {
    var files, jobs: map<nat, Job>, writes: seq<nat> := dir, map[], [];
    var i := 0;
    while i < |entries|
      invariant 0 <= i <= |entries|
      invariant Loading(files, jobs, writes) == Load(dir, entries[..i])
    {
      assert entries[..i + 1][..i] == entries[..i];
      var entry := entries[i];
      if entry.name in files {
        match files[entry.name] {
          case Malformed =>
          case Stored(id, job) =>
            var repaired, recovered := RepairJob(job);
            jobs := jobs[id := repaired];
            if recovered && entry.ok {
              files := files[Snapshot(id) := Stored(id, repaired)];
              writes := writes + [id];
            }
        }
      }
      i := i + 1;
    }
    assert entries[..i] == entries;
    s := Loading(files, jobs, writes);
  }
}
