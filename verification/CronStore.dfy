/**
  The cron manager: a state file with the jobs and the run history, and a cron file rendered from the
  jobs.  Every change writes the cron file first and takes it back if the state cannot be written.
*/
module CronStore {
  import opened Options
  import opened CronJobs

  datatype Run = Run(id: string, job: string, exit: int, output: string)

  /** A missing state file reads as no jobs and no history. */
  datatype Disk = Disk(jobs: seq<Job>, history: seq<Run>, cron: Option<string>)

  /** What one call meets: whether the state can be read, which jobs are valid, the system's own jobs,
      the time, and whether each write succeeds. */
  datatype Plan = Plan(load: bool, valid: Job -> bool, system: seq<Job>, now: nat, cron: bool, state: bool, undo: bool)

  datatype Result = Result(disk: Disk, ok: bool)

  datatype Request = Create(job: Job) | Update(job: Job) | Delete(id: string)

  // ---------------------------------------------------------------- commit

  function Rendered(jobs: seq<Job>): string {
    CronText(Sort(jobs))
  }

  function Commit(d: Disk, jobs: seq<Job>, plan: Plan): Result {
    var sorted := Sort(jobs);
    if !Valid(plan.valid, sorted) || !plan.cron then Result(d, false)
    else if plan.state then Result(d.(jobs := sorted, cron := Some(Rendered(jobs))), true)
    else if plan.undo && Valid(plan.valid, Sort(d.jobs)) then Result(d.(cron := Some(Rendered(d.jobs))), false)
    else Result(d.(cron := Some(Rendered(jobs))), false)
  }

  // ---------------------------------------------------------------- requests

  predicate Locked(job: Job) {
    job.locked || job.kind.OpenDeploy?
  }

  function Position(jobs: seq<Job>, id: string, from: nat): (r: Option<nat>)
    requires from <= |jobs|
    ensures r.Some? ==> from <= r.value < |jobs| && jobs[r.value].id == id
    ensures r.Some? ==> forall k :: from <= k < r.value ==> jobs[k].id != id
    ensures r.None? ==> forall k :: from <= k < |jobs| ==> jobs[k].id != id
    decreases |jobs| - from
  {
    if from == |jobs| then None else if jobs[from].id == id then Some(from) else Position(jobs, id, from + 1)
  }

  function Without(jobs: seq<Job>, id: string): (r: seq<Job>)
    ensures |r| <= |jobs|
  {
    if jobs == [] then []
    else
      var last := jobs[|jobs| - 1];
      Without(jobs[..|jobs| - 1], id) + (if last.id == id then [] else [last])
  }

  predicate LockedJob(jobs: seq<Job>, id: string) {
    exists i :: 0 <= i < |jobs| && jobs[i].id == id && Locked(jobs[i])
  }

  predicate LockedBySystem(plan: Plan, id: string) {
    exists i :: 0 <= i < |plan.system| && plan.system[i].id == id && plan.system[i].locked
  }

  function Created(job: Job, now: nat): Job {
    job.(created := now, updated := now, kind := if job.kind.Unset? then User else job.kind)
  }

  function Updated(job: Job, existing: Job, now: nat): Job {
    job.(created := existing.created, updated := now, kind := if job.kind.Unset? then existing.kind else job.kind)
  }

  /** The jobs after a request, if it is allowed. */
  function Wanted(d: Disk, request: Request, plan: Plan): Option<seq<Job>> {
    match request
    case Create(job) =>
      if !plan.valid(job) || !plan.load || Has(d.jobs, job.id) || Has(plan.system, job.id) then None
      else Some(d.jobs + [Created(job, plan.now)])
    case Update(job) =>
      var at := Position(d.jobs, job.id, 0);
      if !plan.valid(job) || !plan.load || LockedBySystem(plan, job.id) then None
      else if at.None? || Locked(d.jobs[at.value]) then None
      else Some(d.jobs[at.value := Updated(job, d.jobs[at.value], plan.now)])
    case Delete(id) =>
      if !plan.load || LockedBySystem(plan, id) || !Has(d.jobs, id) || LockedJob(d.jobs, id) then None
      else Some(Without(d.jobs, id))
  }

  function Step(d: Disk, request: Request, plan: Plan): Result {
    var jobs := Wanted(d, request, plan);
    if jobs.None? then Result(d, false) else Commit(d, jobs.value, plan)
  }

  // ---------------------------------------------------------------- both files

  predicate InStep(d: Disk) {
    d.cron == Some(Rendered(d.jobs))
  }

  /** A change that succeeds leaves the files in step; one that fails never touches the state. */
  lemma CommitOutcome(d: Disk, jobs: seq<Job>, plan: Plan)
    requires Distinct(jobs)
    ensures var r := Commit(d, jobs, plan);
            && (r.ok ==> InStep(r.disk) && r.disk.jobs == Sort(jobs) && r.disk.history == d.history)
            && (!r.ok ==> r.disk.jobs == d.jobs && r.disk.history == d.history)
  {
    SortOrdered(jobs);
    SortIdle(Sort(jobs));
  }

  /** The state write fails after the cron file was written, and the cron file is taken back. */
  predicate TakenBack(d: Disk, jobs: seq<Job>, plan: Plan) {
    && Valid(plan.valid, Sort(jobs)) && plan.cron && !plan.state
    && plan.undo && Valid(plan.valid, Sort(d.jobs))
  }

  /** Taking back renders the old state: the files are in step, and as before if and only if they were
      in step before. */
  lemma TakenBackIff(d: Disk, jobs: seq<Job>, plan: Plan)
    requires TakenBack(d, jobs, plan)
    ensures var r := Commit(d, jobs, plan);
            && !r.ok && InStep(r.disk)
            && (r.disk == d <==> InStep(d))
  {
  }

  /** The first request ever, when its state cannot be written: there was no cron file, and now there is one. */
  lemma FirstFailureLeavesFile(job: Job, plan: Plan)
    requires plan.valid(job) && plan.valid(Created(job, plan.now)) && plan.load && !Has(plan.system, job.id)
    requires plan.cron && !plan.state && plan.undo
    ensures var r := Step(Disk([], [], None), Create(job), plan);
            !r.ok && r.disk == Disk([], [], Some(HEADER))
  {
    assert Sort([Created(job, plan.now)]) == [Created(job, plan.now)];
    assert TakenBack(Disk([], [], None), [Created(job, plan.now)], plan);
  }

  /** The cron file is lost from step only when taking back fails as well. */
  predicate Careful(d: Disk, plan: Plan) {
    plan.state || !plan.cron || (plan.undo && Valid(plan.valid, Sort(d.jobs)))
  }

  /** A change that fails with files in step leaves both as they were. */
  lemma ErrorKeepsFiles(d: Disk, request: Request, plan: Plan)
    requires InStep(d) && Careful(d, plan) && !Step(d, request, plan).ok
    ensures Step(d, request, plan).disk == d
  {
  }

  /** When taking back fails too, the cron file is the rendering of jobs that were not persisted. */
  lemma NotTakenBack(d: Disk, jobs: seq<Job>, plan: Plan)
    requires InStep(d) && !Careful(d, plan) && Valid(plan.valid, Sort(jobs))
    ensures var r := Commit(d, jobs, plan);
            !r.ok && (r.disk == d <==> Rendered(jobs) == Rendered(d.jobs))
  {
  }

  // ---------------------------------------------------------------- identifiers

  lemma {:induction false} WithoutMembers(jobs: seq<Job>, id: string, job: Job)
    ensures job in Without(jobs, id) <==> job in jobs && job.id != id
  {
    if jobs != [] {
      var n := |jobs| - 1;
      WithoutMembers(jobs[..n], id, job);
      assert jobs == jobs[..n] + [jobs[n]];
    }
  }

  /** The filter keeps the other jobs, each once and in order. */
  lemma {:induction false} WithoutDistinct(jobs: seq<Job>, id: string)
    requires Distinct(jobs)
    ensures Distinct(Without(jobs, id))
  {
    if jobs != [] {
      var n := |jobs| - 1;
      var rest := Without(jobs[..n], id);
      WithoutDistinct(jobs[..n], id);
      forall i | 0 <= i < |rest| ensures rest[i].id != jobs[n].id {
        WithoutMembers(jobs[..n], id, rest[i]);
        assert rest[i] in jobs[..n];
      }
    }
  }

  lemma WantedDistinct(d: Disk, request: Request, plan: Plan)
    requires Distinct(d.jobs) && Wanted(d, request, plan).Some?
    ensures Distinct(Wanted(d, request, plan).value)
  {
    match request
    case Create(job) =>
    case Update(job) =>
    case Delete(id) => WithoutDistinct(d.jobs, id);
  }

  lemma StepDistinct(d: Disk, request: Request, plan: Plan)
    requires Distinct(d.jobs)
    ensures Distinct(Step(d, request, plan).disk.jobs)
  {
    var jobs := Wanted(d, request, plan);
    if jobs.Some? {
      WantedDistinct(d, request, plan);
      SortOrdered(jobs.value);
      OrderedIsDistinct(Sort(jobs.value));
    }
  }

  // ---------------------------------------------------------------- what a request leaves

  predicate SameBut(a: Job, b: Job) {
    a.expression == b.expression && a.timezone == b.timezone && a.environment == b.environment
    && a.enabled == b.enabled && a.locked == b.locked && a.details == b.details && a.id == b.id
  }

  /** A create that succeeds adds the job sent, as a user's job if it says nothing else, and keeps every
      other one. */
  lemma CreateAdds(d: Disk, job: Job, plan: Plan, other: Job)
    requires Step(d, Create(job), plan).ok
    ensures var jobs := Step(d, Create(job), plan).disk.jobs;
            && (exists j :: j in jobs && SameBut(j, job) && j.created == j.updated == plan.now
                            && j.kind == (if job.kind.Unset? then User else job.kind))
            && (other in d.jobs ==> other in jobs)
            && (other in jobs && other.id != job.id ==> other in d.jobs)
            && !Has(d.jobs, job.id)
  {
    var wanted := d.jobs + [Created(job, plan.now)];
    SameJobs(Sort(wanted), wanted, Created(job, plan.now));
    SameJobs(Sort(wanted), wanted, other);
    assert SameBut(Created(job, plan.now), job);
  }

  /** An update that succeeds puts the job sent in the place of the one with its ID, with the creation time
      that one had, and keeps every other one. */
  lemma UpdateReplaces(d: Disk, job: Job, plan: Plan, was: Job, other: Job)
    requires Distinct(d.jobs) && Step(d, Update(job), plan).ok && was in d.jobs && was.id == job.id
    ensures var jobs := Step(d, Update(job), plan).disk.jobs;
            && (exists j :: j in jobs && SameBut(j, job) && j.created == was.created && j.updated == plan.now
                            && j.kind == (if job.kind.Unset? then was.kind else job.kind))
            && (other.id != job.id ==> (other in jobs <==> other in d.jobs))
  {
    var at := Position(d.jobs, job.id, 0).value;
    var i :| 0 <= i < |d.jobs| && d.jobs[i] == was;
    assert i == at;
    var now := Updated(job, was, plan.now);
    var wanted := d.jobs[at := now];
    assert wanted[at] == now && SameBut(now, job);
    assert Step(d, Update(job), plan).disk.jobs == Sort(wanted);
    SameJobs(Sort(wanted), wanted, now);
    SameJobs(Sort(wanted), wanted, other);
    if other.id != job.id {
      ReplacedMembers(d.jobs, at, now, other);
    }
  }

  lemma ReplacedMembers(jobs: seq<Job>, at: nat, now: Job, other: Job)
    requires at < |jobs| && other != now && other != jobs[at]
    ensures other in jobs[at := now] <==> other in jobs
  {
    var wanted := jobs[at := now];
    if other in jobs {
      var i :| 0 <= i < |jobs| && jobs[i] == other;
      assert wanted[i] == other;
    }
    if other in wanted {
      var i :| 0 <= i < |wanted| && wanted[i] == other;
      assert jobs[i] == other;
    }
  }

  /** A delete that succeeds removes the job with that ID and keeps every other one. */
  lemma DeleteRemoves(d: Disk, id: string, plan: Plan, other: Job)
    requires Step(d, Delete(id), plan).ok
    ensures other in Step(d, Delete(id), plan).disk.jobs <==> other in d.jobs && other.id != id
    ensures Has(d.jobs, id)
  {
    SameJobs(Sort(Without(d.jobs, id)), Without(d.jobs, id), other);
    WithoutMembers(d.jobs, id, other);
  }

  predicate AllFine(plan: Plan) {
    plan.load && plan.cron && plan.state && plan.system == []
  }

  predicate Changeable(jobs: seq<Job>, id: string) {
    exists j :: j in jobs && j.id == id && !Locked(j)
  }

  /** With every answer fine a create succeeds for a new ID, an update for an existing job that is not locked,
      and a delete likewise; nothing else does. */
  lemma FineSucceeds(d: Disk, request: Request, plan: Plan)
    requires AllFine(plan) && (forall j: Job :: plan.valid(j)) && Distinct(d.jobs)
    ensures Step(d, request, plan).ok <==>
            match request
            case Create(job) => !Has(d.jobs, job.id)
            case Update(job) => Changeable(d.jobs, job.id)
            case Delete(id) => Changeable(d.jobs, id)
  {
    assert Step(d, request, plan).ok <==> Wanted(d, request, plan).Some?;
    match request
    case Create(_) =>
    case Update(job) => FirstIsChangeable(d.jobs, job.id);
    case Delete(id) => NoneLocked(d.jobs, id);
  }

  lemma FirstIsChangeable(jobs: seq<Job>, id: string)
    requires Distinct(jobs)
    ensures var at := Position(jobs, id, 0);
            Changeable(jobs, id) <==> at.Some? && !Locked(jobs[at.value])
  {
    if j :| j in jobs && j.id == id && !Locked(j) {
      var i :| 0 <= i < |jobs| && jobs[i] == j;
      assert Position(jobs, id, 0) == Some(i);
    }
  }

  lemma NoneLocked(jobs: seq<Job>, id: string)
    requires Distinct(jobs)
    ensures Changeable(jobs, id) <==> Has(jobs, id) && !LockedJob(jobs, id)
  {
    if j :| j in jobs && j.id == id && !Locked(j) {
      var i :| 0 <= i < |jobs| && jobs[i] == j;
      forall k | 0 <= k < |jobs| && jobs[k].id == id ensures !Locked(jobs[k]) {
        assert k == i;
      }
    }
    if Has(jobs, id) && !LockedJob(jobs, id) {
      var i :| 0 <= i < |jobs| && jobs[i].id == id;
      assert jobs[i] in jobs && !Locked(jobs[i]);
    }
  }

  // ---------------------------------------------------------------- jobs that are not the caller's

  lemma WantedKeepsLocked(d: Disk, request: Request, plan: Plan, job: Job)
    requires Distinct(d.jobs) && Wanted(d, request, plan).Some? && job in d.jobs && Locked(job)
    ensures job in Wanted(d, request, plan).value
  {
    match request
    case Create(_) =>
    case Update(u) =>
      var at := Position(d.jobs, u.id, 0).value;
      var i :| 0 <= i < |d.jobs| && d.jobs[i] == job;
      assert i != at;
      assert Wanted(d, request, plan).value[i] == job;
    case Delete(id) => WithoutMembers(d.jobs, id, job);
  }

  lemma StepKeepsLocked(d: Disk, request: Request, plan: Plan, job: Job)
    requires Distinct(d.jobs) && job in d.jobs && Locked(job)
    ensures job in Step(d, request, plan).disk.jobs
  {
    var jobs := Wanted(d, request, plan);
    if jobs.Some? {
      WantedKeepsLocked(d, request, plan, job);
      SameJobs(Sort(jobs.value), jobs.value, job);
    }
  }

  // ---------------------------------------------------------------- history

  function LastOf(log: seq<Run>, n: nat): seq<Run> {
    if |log| > n then log[|log| - n..] else log
  }

  function Reverse(log: seq<Run>): seq<Run> {
    if log == [] then [] else [log[|log| - 1]] + Reverse(log[..|log| - 1])
  }

  predicate Concerns(run: Run, id: string) {
    id == "" || run.job == id
  }

  function Filter(log: seq<Run>, id: string): seq<Run> {
    if log == [] then [] else (if Concerns(log[0], id) then [log[0]] else []) + Filter(log[1..], id)
  }

  function Take(log: seq<Run>, n: nat): seq<Run> {
    if |log| > n then log[..n] else log
  }

  ghost function Matching(log: seq<Run>, n: nat, id: string): seq<Run>
    requires n <= |log|
  {
    Filter(Reverse(log[..n]), id)
  }

  lemma NewestFirst(log: seq<Run>, n: nat, id: string)
    requires n < |log|
    ensures Matching(log, n + 1, id) == (if Concerns(log[n], id) then [log[n]] else []) + Matching(log, n, id)
  {
    assert log[..n + 1][..n] == log[..n];
    var all := Reverse(log[..n + 1]);
    assert all == [log[n]] + Reverse(log[..n]) && all[1..] == Reverse(log[..n]);
  }

  const DEFAULT_LIMIT := 100

  function Limit(limit: int, retention: nat): (r: nat)
    ensures 1 <= limit <= retention ==> r == limit
    ensures !(1 <= limit <= retention) ==> r == 100
  {
    if limit < 1 || limit > retention then DEFAULT_LIMIT else limit
  }

  lemma {:induction false} ReverseAt(log: seq<Run>, i: nat)
    requires i < |log|
    ensures |Reverse(log)| == |log| && Reverse(log)[i] == log[|log| - 1 - i]
  {
    if |log| > 1 {
      ReverseAt(log[..|log| - 1], if i > 0 then i - 1 else 0);
    }
  }

  lemma {:induction false} FilterMembers(log: seq<Run>, id: string, run: Run)
    ensures multiset(Filter(log, id))[run] == if Concerns(run, id) then multiset(log)[run] else 0
  {
    if log != [] {
      FilterMembers(log[1..], id, run);
      assert log == [log[0]] + log[1..];
    }
  }

  // ---------------------------------------------------------------- runs

  datatype Event = Change(request: Request, plan: Plan) | Finished(run: Run, recorded: bool)

  function Next(d: Disk, event: Event, retention: nat): Disk {
    match event
    case Change(request, plan) => Step(d, request, plan).disk
    case Finished(run, recorded) => if recorded then d.(history := LastOf(d.history + [run], retention)) else d
  }

  function After(events: seq<Event>, retention: nat): Disk {
    if events == [] then Disk([], [], None)
    else Next(After(events[..|events| - 1], retention), events[|events| - 1], retention)
  }

  /** Every recorded run, oldest first. */
  function Log(events: seq<Event>): seq<Run> {
    if events == [] then []
    else
      var before := Log(events[..|events| - 1]);
      match events[|events| - 1]
      case Change(_, _) => before
      case Finished(run, recorded) => if recorded then before + [run] else before
  }

  lemma LastOfMore(log: seq<Run>, run: Run, n: nat)
    ensures LastOf(LastOf(log, n) + [run], n) == LastOf(log + [run], n)
  {
  }

  lemma StepKeepsHistory(d: Disk, request: Request, plan: Plan)
    ensures Step(d, request, plan).disk.history == d.history
  {
  }

  /** The stored history is the end of the full log. */
  lemma {:induction false} HistoryIsLast(events: seq<Event>, retention: nat)
    ensures After(events, retention).history == LastOf(Log(events), retention)
  {
    if events != [] {
      var before := events[..|events| - 1];
      HistoryIsLast(before, retention);
      match events[|events| - 1]
      case Change(request, plan) => StepKeepsHistory(After(before, retention), request, plan);
      case Finished(run, recorded) => LastOfMore(Log(before), run, retention);
    }
  }

  /** Over every run the job identifiers stay unique. */
  lemma {:induction false} RunDistinct(events: seq<Event>, retention: nat)
    ensures Distinct(After(events, retention).jobs)
  {
    if events != [] {
      var before := events[..|events| - 1];
      RunDistinct(before, retention);
      match events[|events| - 1]
      case Change(request, plan) => StepDistinct(After(before, retention), request, plan);
      case Finished(_, _) =>
    }
  }

  /** Every change of the run takes its cron file back when its state write fails. */
  ghost predicate AllCareful(events: seq<Event>, retention: nat) {
    forall i :: 0 <= i < |events| && events[i].Change? ==> Careful(After(events[..i], retention), events[i].plan)
  }

  /** In step, or nothing written yet. */
  predicate Sound(d: Disk) {
    InStep(d) || (d.jobs == [] && d.cron == None)
  }

  lemma StepSound(d: Disk, request: Request, plan: Plan)
    requires Sound(d) && Distinct(d.jobs) && Careful(d, plan)
    ensures Sound(Step(d, request, plan).disk)
  {
    var jobs := Wanted(d, request, plan);
    if jobs.Some? {
      WantedDistinct(d, request, plan);
      CommitOutcome(d, jobs.value, plan);
    }
  }

  /** Over every such run the cron file is the rendering of the persisted jobs. */
  lemma {:induction false} RunSound(events: seq<Event>, retention: nat)
    requires AllCareful(events, retention)
    ensures Sound(After(events, retention))
  {
    if events != [] {
      var n := |events| - 1;
      var before := events[..n];
      forall i | 0 <= i < n && before[i].Change? ensures Careful(After(before[..i], retention), before[i].plan) {
        assert before[..i] == events[..i] && before[i] == events[i];
      }
      RunSound(before, retention);
      RunDistinct(before, retention);
      match events[n]
      case Change(request, plan) => StepSound(After(before, retention), request, plan);
      case Finished(_, _) =>
    }
  }

  /** A job that is not the caller's to change is never changed or removed. */
  lemma {:induction false} RunKeepsLocked(events: seq<Event>, n: nat, retention: nat, job: Job)
    requires n <= |events| && job in After(events[..n], retention).jobs && Locked(job)
    ensures job in After(events, retention).jobs
  {
    if n == |events| {
      assert events[..n] == events;
    } else {
      var m := |events| - 1;
      var before := events[..m];
      assert before[..n] == events[..n];
      RunKeepsLocked(before, n, retention, job);
      RunDistinct(before, retention);
      EventKeepsLocked(After(before, retention), events[m], retention, job);
    }
  }

  lemma EventKeepsLocked(d: Disk, event: Event, retention: nat, job: Job)
    requires Distinct(d.jobs) && job in d.jobs && Locked(job)
    ensures job in Next(d, event, retention).jobs
  {
    match event
    case Change(request, plan) => StepKeepsLocked(d, request, plan, job);
    case Finished(_, _) =>
  }

  // ---------------------------------------------------------------- the manager

  class Manager {
    const retention: nat
    var jobs: seq<Job>
    var history: seq<Run>
    var cron: Option<string>

    constructor (retention: nat)
      ensures this.retention == retention && Now() == After([], retention)
    {
      this.retention := retention;
      jobs, history, cron := [], [], None;
    }

    function Now(): Disk
      reads this
    {
      Disk(jobs, history, cron)
    }

    /** The rendering, if every enabled job is valid. */
    method Render(sorted: seq<Job>, valid: Job -> bool) returns (text: Option<string>)
      ensures text == if Valid(valid, sorted) then Some(CronText(sorted)) else None
    {
      var output := HEADER;
      for i := 0 to |sorted|
        invariant Valid(valid, sorted[..i]) && output == CronText(sorted[..i])
      {
        assert sorted[..i + 1][..i] == sorted[..i];
        if sorted[i].enabled {
          if !valid(sorted[i]) {
            return None;
          }
          output := output + EntryText(sorted[i]);
        }
      }
      assert sorted[..|sorted|] == sorted;
      return Some(output);
    }

    method CommitJobs(wanted: seq<Job>, plan: Plan) returns (ok: bool)
      modifies this`jobs, this`cron
      ensures Result(Now(), ok) == Commit(old(Now()), wanted, plan)
    {
      var sorted := Sort(wanted);
      var text := Render(sorted, plan.valid);
      if text.None? || !plan.cron {
        return false;
      }
      cron := text;
      if !plan.state {
        var before := Render(Sort(jobs), plan.valid);
        if plan.undo && before.Some? {
          cron := before;
        }
        return false;
      }
      jobs := sorted;
      return true;
    }

    method CreateJob(job: Job, plan: Plan) returns (ok: bool)
      modifies this`jobs, this`cron
      ensures Result(Now(), ok) == Step(old(Now()), Create(job), plan)
    {
      if !plan.valid(job) || !plan.load || Has(jobs, job.id) || Has(plan.system, job.id) {
        return false;
      }
      ok := CommitJobs(jobs + [Created(job, plan.now)], plan);
    }

    method UpdateJob(job: Job, plan: Plan) returns (ok: bool)
      modifies this`jobs, this`cron
      ensures Result(Now(), ok) == Step(old(Now()), Update(job), plan)
    {
      if !plan.valid(job) || !plan.load || LockedBySystem(plan, job.id) {
        return false;
      }
      for i := 0 to |jobs|
        invariant Now() == old(Now()) && Position(jobs, job.id, 0) == Position(jobs, job.id, i)
      {
        if jobs[i].id == job.id {
          if Locked(jobs[i]) {
            return false;
          }
          ok := CommitJobs(jobs[i := Updated(job, jobs[i], plan.now)], plan);
          return;
        }
      }
      return false;
    }

    method DeleteJob(id: string, plan: Plan) returns (ok: bool)
      modifies this`jobs, this`cron
      ensures Result(Now(), ok) == Step(old(Now()), Delete(id), plan)
    {
      if !plan.load || LockedBySystem(plan, id) {
        return false;
      }
      var loaded := new Job[|jobs|](i requires 0 <= i < |jobs| reads this => jobs[i]);
      assert loaded[..] == jobs;
      var kept, verdict := FilterInPlace(loaded, id);
      if verdict != Removed {
        return false;
      }
      ok := CommitJobs(loaded[..kept], plan);
    }

    method AppendHistory(run: Run, recorded: bool)
      modifies this`history
      ensures Now() == if recorded then old(Now()).(history := LastOf(old(history) + [run], retention)) else old(Now())
    {
      var log := history + [run];
      if |log| > retention {
        log := log[|log| - retention..];
      }
      if recorded {
        history := log;
      }
    }

    /** The newest runs of a job, newest first, as many as asked for. */
    method History(id: string, limit: int) returns (result: seq<Run>)
      ensures result == Take(Filter(Reverse(history), id), Limit(limit, retention))
    {
      result := Newest(history, id, Limit(limit, retention));
    }
  }

  method Newest(log: seq<Run>, id: string, most: nat) returns (result: seq<Run>)
    ensures result == Take(Filter(Reverse(log), id), most)
  {
    result := [];
    var index := |log|;
    ghost var all := Matching(log, index, id);
    assert log[..index] == log;
    while index > 0 && |result| < most
      invariant 0 <= index <= |log| && |result| <= most
      invariant all == result + Matching(log, index, id)
    {
      index := index - 1;
      NewestFirst(log, index, id);
      ghost var rest := Matching(log, index, id);
      if Concerns(log[index], id) {
        assert result + ([log[index]] + rest) == (result + [log[index]]) + rest;
        result := result + [log[index]];
      }
    }
  }

  datatype Verdict = Removed | Missing | Protected

  /** Deletes by moving the jobs that stay to the front of the same array. */
  method FilterInPlace(a: array<Job>, id: string) returns (kept: nat, verdict: Verdict)
    modifies a
    ensures verdict == if LockedJob(old(a[..]), id) then Protected else if Has(old(a[..]), id) then Removed else Missing
    ensures kept <= a.Length
    ensures verdict != Protected ==> a[..kept] == Without(old(a[..]), id)
  {
    ghost var was := a[..];
    kept, verdict := 0, Missing;
    for i := 0 to a.Length
      invariant kept <= i && forall k :: i <= k < a.Length ==> a[k] == was[k]
      invariant a[..kept] == Without(was[..i], id)
      invariant verdict == (if Has(was[..i], id) then Removed else Missing) && !LockedJob(was[..i], id)
    {
      ScanOne(was, i, id);
      var job := a[i];
      if job.id == id {
        if Locked(job) {
          return kept, Protected;
        }
        verdict := Removed;
      } else {
        ghost var front := a[..kept];
        a[kept] := job;
        kept := kept + 1;
        assert a[..kept] == front + [job];
      }
    }
    assert was[..a.Length] == was;
  }

  /** What one more job adds to each of the three answers. */
  lemma ScanOne(jobs: seq<Job>, i: nat, id: string)
    requires i < |jobs|
    ensures Without(jobs[..i + 1], id) == Without(jobs[..i], id) + (if jobs[i].id == id then [] else [jobs[i]])
    ensures Has(jobs[..i + 1], id) <==> Has(jobs[..i], id) || jobs[i].id == id
    ensures LockedJob(jobs[..i + 1], id) <==> LockedJob(jobs[..i], id) || (jobs[i].id == id && Locked(jobs[i]))
    ensures LockedJob(jobs[..i + 1], id) ==> LockedJob(jobs, id)
  {
    assert jobs[..i + 1][..i] == jobs[..i];
    assert jobs[..i + 1][i] == jobs[i];
  }
}
