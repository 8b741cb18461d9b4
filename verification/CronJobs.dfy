/** Cron jobs, their order, and the cron file rendered from them. */
module CronJobs {
  datatype Kind = Unset | Unknown | System | Package | OpenDeploy | User

  /** `environment` holds the assignments as they are written, in key order; `details` is everything
      that the cron file does not show. */
  datatype Job = Job(id: string, expression: string, timezone: string, environment: seq<string>, enabled: bool,
                     kind: Kind, locked: bool, created: nat, updated: nat, details: string)

  // ---------------------------------------------------------------- order

  /** The order of texts character by character. */
  predicate Less(a: string, b: string) {
    b != [] && (a == [] || a[0] < b[0] || (a[0] == b[0] && Less(a[1..], b[1..])))
  }

  lemma {:induction false} LessTotal(a: string, b: string)
    ensures Less(a, b) || a == b || Less(b, a)
  {
    if a != [] && b != [] && a[0] == b[0] {
      LessTotal(a[1..], b[1..]);
      assert a == [a[0]] + a[1..] && b == [b[0]] + b[1..];
    }
  }

  lemma {:induction false} LessTransitive(a: string, b: string, c: string)
    requires Less(a, b) && Less(b, c)
    ensures Less(a, c)
  {
    if a != [] && a[0] == b[0] && b[0] == c[0] {
      LessTransitive(a[1..], b[1..], c[1..]);
    }
  }

  lemma {:induction false} LessIrreflexive(a: string)
    ensures !Less(a, a)
  {
    if a != [] {
      LessIrreflexive(a[1..]);
    }
  }

  predicate FirstDifference(a: string, b: string, i: nat) {
    i < |b| && i <= |a| && a[..i] == b[..i] && (i == |a| || a[i] < b[i])
  }

  /** A text is less than another if it is a beginning of it, or smaller where they first differ. */
  lemma {:induction false} LessMeans(a: string, b: string)
    ensures Less(a, b) <==> exists i: nat :: FirstDifference(a, b, i)
  {
    if b != [] {
      assert a == [] || a[0] < b[0] ==> FirstDifference(a, b, 0);
      if a != [] && a[0] == b[0] {
        LessMeans(a[1..], b[1..]);
        if Less(a[1..], b[1..]) {
          var i: nat :| FirstDifference(a[1..], b[1..], i);
          assert a[..i + 1] == [a[0]] + a[1..][..i] && b[..i + 1] == [b[0]] + b[1..][..i];
          assert FirstDifference(a, b, i + 1);
        }
        if i: nat :| FirstDifference(a, b, i) {
          assert i > 0 && a[1..][..i - 1] == a[..i][1..] && b[1..][..i - 1] == b[..i][1..];
          assert FirstDifference(a[1..], b[1..], i - 1);
        }
      } else if i: nat :| FirstDifference(a, b, i) {
        assert i > 0 ==> a[..i][0] == b[..i][0];
      }
    }
  }

  predicate Ordered(jobs: seq<Job>) {
    forall i, j :: 0 <= i < j < |jobs| ==> Less(jobs[i].id, jobs[j].id)
  }

  predicate Distinct(jobs: seq<Job>) {
    forall i, j :: 0 <= i < j < |jobs| ==> jobs[i].id != jobs[j].id
  }

  predicate Has(jobs: seq<Job>, id: string) {
    exists i :: 0 <= i < |jobs| && jobs[i].id == id
  }

  lemma OrderedIsDistinct(jobs: seq<Job>)
    requires Ordered(jobs)
    ensures Distinct(jobs)
  {
    forall i, j | 0 <= i < j < |jobs| ensures jobs[i].id != jobs[j].id {
      LessIrreflexive(jobs[i].id);
    }
  }

  // ---------------------------------------------------------------- sorting

  function Insert(job: Job, jobs: seq<Job>): (r: seq<Job>)
    ensures multiset(r) == multiset(jobs) + multiset{job}
  {
    if jobs == [] then [job]
    else if Less(job.id, jobs[0].id) then [job] + jobs
    else
      assert jobs == [jobs[0]] + jobs[1..];
      [jobs[0]] + Insert(job, jobs[1..])
  }

  function Sort(jobs: seq<Job>): (r: seq<Job>)
    ensures multiset(r) == multiset(jobs)
  {
    if jobs == [] then [] else assert jobs == [jobs[0]] + jobs[1..]; Insert(jobs[0], Sort(jobs[1..]))
  }

  lemma SameJobs(a: seq<Job>, b: seq<Job>, job: Job)
    requires multiset(a) == multiset(b)
    ensures job in a <==> job in b
  {
    assert job in a <==> job in multiset(a);
    assert job in b <==> job in multiset(b);
  }

  lemma {:induction false} InsertOrdered(job: Job, jobs: seq<Job>)
    requires Ordered(jobs) && !Has(jobs, job.id)
    ensures Ordered(Insert(job, jobs))
  {
    if jobs != [] {
      LessTotal(job.id, jobs[0].id);
      if Less(job.id, jobs[0].id) {
        forall j | 0 < j < |jobs| ensures Less(job.id, jobs[j].id) {
          LessTransitive(job.id, jobs[0].id, jobs[j].id);
        }
      } else {
        InsertOrdered(job, jobs[1..]);
        FirstBelow(jobs[0], job, jobs[1..]);
      }
    }
  }

  lemma FirstBelow(first: Job, job: Job, jobs: seq<Job>)
    requires Less(first.id, job.id) && (forall i :: 0 <= i < |jobs| ==> Less(first.id, jobs[i].id))
    ensures forall i :: 0 <= i < |Insert(job, jobs)| ==> Less(first.id, Insert(job, jobs)[i].id)
  {
    var r := Insert(job, jobs);
    forall i | 0 <= i < |r| ensures Less(first.id, r[i].id) {
      assert r[i] in multiset(r);
      if r[i] != job {
        assert r[i] in multiset(jobs);
        assert r[i] in jobs;
      }
    }
  }

  lemma {:induction false} SortOrdered(jobs: seq<Job>)
    requires Distinct(jobs)
    ensures Ordered(Sort(jobs))
  {
    if jobs != [] {
      var rest := Sort(jobs[1..]);
      SortOrdered(jobs[1..]);
      forall i | 0 <= i < |rest| ensures rest[i].id != jobs[0].id {
        SameJobs(rest, jobs[1..], rest[i]);
      }
      InsertOrdered(jobs[0], rest);
    }
  }

  /** However the jobs are sorted, there is one result. */
  lemma {:induction false} OrderedUnique(a: seq<Job>, b: seq<Job>)
    requires Ordered(a) && Ordered(b) && multiset(a) == multiset(b)
    ensures a == b
  {
    if a == [] {
      EmptyAlike(b);
    } else if b == [] {
      EmptyAlike(a);
    } else {
      FirstAlike(a, b);
      TailJobs(a);
      TailJobs(b);
      OrderedUnique(a[1..], b[1..]);
    }
  }

  lemma TailJobs(a: seq<Job>)
    requires a != []
    ensures multiset(a[1..]) == multiset(a) - multiset{a[0]}
  {
    assert a == [a[0]] + a[1..];
  }

  lemma EmptyAlike(b: seq<Job>)
    requires multiset(b) == multiset{}
    ensures b == []
  {
    assert |multiset(b)| == |b|;
  }

  lemma FirstAlike(a: seq<Job>, b: seq<Job>)
    requires a != [] && b != [] && Ordered(a) && Ordered(b) && multiset(a) == multiset(b)
    ensures a[0] == b[0]
  {
    SameJobs(a, b, a[0]);
    SameJobs(a, b, b[0]);
    var i :| 0 <= i < |a| && a[i] == b[0];
    var j :| 0 <= j < |b| && b[j] == a[0];
    if i > 0 && j > 0 {
      LessTransitive(a[0].id, a[i].id, b[j].id);
      LessIrreflexive(a[0].id);
    }
  }

  lemma SortIdle(jobs: seq<Job>)
    requires Ordered(jobs)
    ensures Sort(jobs) == jobs
  {
    OrderedIsDistinct(jobs);
    SortOrdered(jobs);
    OrderedUnique(Sort(jobs), jobs);
  }

  // ---------------------------------------------------------------- the cron file

  const HEADER_LINE := "# Managed by OpenDeploy." + " Manual changes" + " will be overwritten."
  const HEADER := HEADER_LINE + "\n"

  /** The command that cron starts, up to the job's ID. */
  const AGENT := " root" + " /usr/bin/" + "opendeploy-agent" + " --cron-run"

  function Assignments(lines: seq<string>): string {
    if lines == [] then "" else lines[0] + "\n" + Assignments(lines[1..])
  }

  function EntryText(job: Job): string {
    (if job.timezone != "" then "CRON_TZ=" + job.timezone + "\n" else "")
    + Assignments(job.environment)
    + job.expression + AGENT + "=" + job.id + " # opendeploy:" + job.id + "\n"
  }

  /** The file lists the enabled jobs in the given order. */
  function CronText(jobs: seq<Job>): string {
    if jobs == [] then HEADER
    else
      var last := jobs[|jobs| - 1];
      CronText(jobs[..|jobs| - 1]) + (if last.enabled then EntryText(last) else "")
  }

  predicate Valid(valid: Job -> bool, jobs: seq<Job>) {
    forall i :: 0 <= i < |jobs| && jobs[i].enabled ==> valid(jobs[i])
  }
}
