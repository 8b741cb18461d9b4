/**
  Reading the cron file: a crontab reader that works line by line and knows nothing of how the file was
  written, and what it finds in the files that the manager writes.
*/
module CronFile {
  import opened Options
  import opened Text
  import opened CronJobs
  import opened CronStore

  const NEWLINE := '\n'

  /** A scheduled command: its expression, the job it starts, and the settings since the command before. */
  datatype Entry = Entry(expression: string, id: string, settings: seq<string>)

  datatype Table = Table(entries: seq<Entry>, pending: seq<string>)

  // ---------------------------------------------------------------- the reader

  /** Blank lines and lines whose first visible character is `#`. */
  predicate Ignored(line: string) {
    TrimLeft(line) == [] || TrimLeft(line)[0] == '#'
  }

  /** name=value, with no blank in the name. */
  predicate IsSetting(line: string) {
    '=' in line && ' ' !in UpTo(line, '=')
  }

  /** What stands before the Agent's command line, or all of it for any other command. */
  function ExpressionOf(line: string): string {
    var head := UpTo(line, '=');
    if |AGENT| <= |head| && head[|head| - |AGENT|..] == AGENT then head[..|head| - |AGENT|] else line
  }

  function IdOf(line: string): string {
    var head := UpTo(line, '=');
    if |head| < |line| then UpTo(line[|head| + 1..], ' ') else ""
  }

  function ReadLine(t: Table, line: string): Table {
    if Ignored(line) then t
    else if IsSetting(line) then t.(pending := t.pending + [line])
    else Table(t.entries + [Entry(ExpressionOf(line), IdOf(line), t.pending)], [])
  }

  function ReadLines(lines: seq<string>): Table {
    if lines == [] then Table([], []) else ReadLine(ReadLines(lines[..|lines| - 1]), lines[|lines| - 1])
  }

  function ReadCron(text: string): seq<Entry> {
    ReadLines(Split(text, NEWLINE)).entries
  }

  // ---------------------------------------------------------------- what should be found

  function ZoneSettings(job: Job): seq<string> {
    if job.timezone != "" then ["CRON_TZ=" + job.timezone] else []
  }

  function EntryOf(job: Job): Entry {
    Entry(job.expression, job.id, ZoneSettings(job) + job.environment)
  }

  /** The enabled jobs, in the given order. */
  function Listed(jobs: seq<Job>): seq<Entry> {
    if jobs == [] then []
    else
      var last := jobs[|jobs| - 1];
      Listed(jobs[..|jobs| - 1]) + (if last.enabled then [EntryOf(last)] else [])
  }

  /** A setting as it is written. */
  predicate SettingLine(line: string) {
    NEWLINE !in line && IsSetting(line) && !Ignored(line)
  }

  predicate AllSettings(lines: seq<string>) {
    forall i :: 0 <= i < |lines| ==> SettingLine(lines[i])
  }

  /** What validation makes sure of besides the expression. */
  predicate Typed(job: Job) {
    && '=' !in job.expression
    && ' ' !in job.id && NEWLINE !in job.id
    && NEWLINE !in job.timezone
    && AllSettings(job.environment)
  }

  /** An expression that stays on its line and does not turn it into a comment. */
  predicate PlainExpression(x: string) {
    NEWLINE !in x && !(TrimLeft(x) != [] && TrimLeft(x)[0] == '#')
  }

  predicate AllTyped(jobs: seq<Job>) {
    forall i :: 0 <= i < |jobs| && jobs[i].enabled ==> Typed(jobs[i])
  }

  predicate AllPlain(jobs: seq<Job>) {
    forall i :: 0 <= i < |jobs| && jobs[i].enabled ==> PlainExpression(jobs[i].expression)
  }

  // ---------------------------------------------------------------- the lines of the file

  function CommandLine(job: Job): string {
    job.expression + AGENT + "=" + job.id + " # opendeploy:" + job.id
  }

  function JobLines(job: Job): seq<string> {
    ZoneSettings(job) + job.environment + [CommandLine(job)]
  }

  function Unlines(lines: seq<string>): string {
    if lines == [] then [] else Unlines(lines[..|lines| - 1]) + lines[|lines| - 1] + [NEWLINE]
  }

  lemma {:induction false} UnlinesMore(a: seq<string>, b: seq<string>)
    ensures Unlines(a + b) == Unlines(a) + Unlines(b)
  {
    if b == [] {
      assert a + b == a;
    } else {
      var init, last := b[..|b| - 1], b[|b| - 1];
      UnlinesMore(a, init);
      assert (a + b)[..|a + b| - 1] == a + init && (a + b)[|a + b| - 1] == last;
      assert Unlines(a + b) == Unlines(a + init) + last + [NEWLINE];
    }
  }

  lemma {:induction false} AssignmentLines(lines: seq<string>)
    ensures Assignments(lines) == Unlines(lines)
  {
    if lines != [] {
      AssignmentLines(lines[1..]);
      assert lines == [lines[0]] + lines[1..];
      UnlinesMore([lines[0]], lines[1..]);
      UnlinesOne(lines[0]);
    }
  }

  lemma UnlinesOne(line: string)
    ensures Unlines([line]) == line + [NEWLINE]
  {
    assert [line][..0] == [];
  }

  lemma ZoneLines(job: Job)
    ensures Unlines(ZoneSettings(job)) == if job.timezone != "" then "CRON_TZ=" + job.timezone + "\n" else ""
  {
    if job.timezone != "" {
      UnlinesOne("CRON_TZ=" + job.timezone);
    }
  }

  lemma EntryLines(job: Job)
    ensures EntryText(job) == Unlines(JobLines(job))
  {
    ZoneLines(job);
    AssignmentLines(job.environment);
    UnlinesMore(ZoneSettings(job), job.environment);
    UnlinesMore(ZoneSettings(job) + job.environment, [CommandLine(job)]);
    UnlinesOne(CommandLine(job));
    EntryParts(job);
  }

  lemma EntryParts(job: Job)
    ensures EntryText(job)
            == (if job.timezone != "" then "CRON_TZ=" + job.timezone + "\n" else "") + Assignments(job.environment)
               + (CommandLine(job) + [NEWLINE])
  {
  }

  function FileLines(jobs: seq<Job>): seq<string> {
    if jobs == [] then [HEADER_LINE]
    else
      var last := jobs[|jobs| - 1];
      FileLines(jobs[..|jobs| - 1]) + (if last.enabled then JobLines(last) else [])
  }

  lemma {:induction false} CronLines(jobs: seq<Job>)
    ensures CronText(jobs) == Unlines(FileLines(jobs))
  {
    if jobs == [] {
      UnlinesOne(HEADER_LINE);
    } else {
      var init, last := jobs[..|jobs| - 1], jobs[|jobs| - 1];
      CronLines(init);
      EntryLines(last);
      UnlinesMore(FileLines(init), JobLines(last));
      assert FileLines(init) + [] == FileLines(init);
    }
  }

  predicate Whole(lines: seq<string>) {
    forall i :: 0 <= i < |lines| ==> NEWLINE !in lines[i]
  }

  lemma {:induction false} SplitUnlines(lines: seq<string>, rest: string)
    requires Whole(lines)
    ensures Split(Unlines(lines) + rest, NEWLINE) == lines + Split(rest, NEWLINE)
  {
    if lines == [] {
      assert Unlines(lines) + rest == rest && lines + Split(rest, NEWLINE) == Split(rest, NEWLINE);
    } else {
      var init, last := lines[..|lines| - 1], lines[|lines| - 1];
      SplitUnlines(init, last + [NEWLINE] + rest);
      SplitFirst(last, rest, NEWLINE);
      assert Unlines(lines) + rest == Unlines(init) + (last + [NEWLINE] + rest);
      assert lines + Split(rest, NEWLINE) == init + ([last] + Split(rest, NEWLINE));
    }
  }

  lemma ReadUnlines(lines: seq<string>)
    requires Whole(lines)
    ensures ReadCron(Unlines(lines)) == ReadLines(lines).entries
  {
    SplitUnlines(lines, "");
    assert Unlines(lines) + "" == Unlines(lines);
    var all := lines + [""];
    assert Split("", NEWLINE) == [""] && all[..|all| - 1] == lines;
  }

  // ---------------------------------------------------------------- reading what was written

  lemma ReadSnoc(lines: seq<string>, line: string)
    ensures ReadLines(lines + [line]) == ReadLine(ReadLines(lines), line)
  {
    assert (lines + [line])[..|lines|] == lines;
  }

  lemma ReadSetting(t: Table, line: string)
    requires SettingLine(line)
    ensures ReadLine(t, line) == t.(pending := t.pending + [line])
  {
  }

  lemma AllButFirst(settings: seq<string>)
    requires AllSettings(settings) && settings != []
    ensures AllSettings(settings[1..]) && SettingLine(settings[0])
  {
  }

  lemma Consed(a: seq<string>, b: seq<string>)
    requires b != []
    ensures (a + [b[0]]) + b[1..] == a + b
  {
  }

  lemma {:induction false} ReadSettings(lines: seq<string>, settings: seq<string>)
    requires AllSettings(settings)
    ensures ReadLines(lines + settings) == Table(ReadLines(lines).entries, ReadLines(lines).pending + settings)
    decreases |settings|
  {
    if settings == [] {
      assert lines + settings == lines && ReadLines(lines).pending + settings == ReadLines(lines).pending;
    } else {
      var t, first, rest := ReadLines(lines), settings[0], settings[1..];
      AllButFirst(settings);
      ReadSnoc(lines, first);
      ReadSetting(t, first);
      ReadSettings(lines + [first], rest);
      Consed(lines, settings);
      Consed(t.pending, settings);
    }
  }

  lemma Appended(a: seq<string>, b: seq<string>, c: string)
    ensures a + (b + [c]) == a + b + [c]
  {
  }

  lemma CommandParts(job: Job)
    requires Typed(job)
    ensures var line := CommandLine(job);
            UpTo(line, '=') == job.expression + AGENT && ExpressionOf(line) == job.expression && IdOf(line) == job.id
  {
    var line, head := CommandLine(job), job.expression + AGENT;
    var tail := job.id + [' '] + ("# opendeploy:" + job.id);
    assert line == head + ['='] + tail;
    AgentPlain();
    UpToFirst(head, tail, '=');
    assert head[|head| - |AGENT|..] == AGENT && head[..|head| - |AGENT|] == job.expression;
    assert line[|head| + 1..] == tail;
    UpToFirst(job.id, "# opendeploy:" + job.id, ' ');
  }

  lemma AgentPlain()
    ensures '=' !in AGENT && NEWLINE !in AGENT && AGENT[0] == ' ' && AGENT[1] == 'r'
  {
    assert AGENT == " root" + " /usr/bin/" + "opendeploy-agent" + " --cron-run";
    assert AGENT[0] == " root"[0] && AGENT[1] == " root"[1];
  }

  /** A blank start does not hide what follows, and text keeps its first visible character. */
  lemma FirstVisible(x: string, tail: string)
    requires |tail| > 1 && tail[0] == ' ' && tail[1] == 'r'
    ensures TrimLeft(x + tail) != []
    ensures TrimLeft(x + tail)[0] == if TrimLeft(x) != [] then TrimLeft(x)[0] else 'r'
  {
    if TrimLeft(x) != [] {
      TrimLeftKeeps(x, tail);
    } else {
      TrimLeftBlank(x);
      TrimLeftSkips(x, tail);
      assert IsSpace(' ') && !IsSpace('r');
      assert TrimLeft(tail) == TrimLeft(tail[1..]) == tail[1..];
    }
  }

  lemma CommandIsNotIgnored(job: Job)
    requires PlainExpression(job.expression)
    ensures !Ignored(CommandLine(job))
  {
    var tail := AGENT + "=" + job.id + " # opendeploy:" + job.id;
    AgentPlain();
    assert tail[0] == AGENT[0] && tail[1] == AGENT[1];
    assert CommandLine(job) == job.expression + tail;
    FirstVisible(job.expression, tail);
  }

  lemma CommandIsNotSetting(job: Job)
    requires Typed(job)
    ensures !IsSetting(CommandLine(job))
  {
    CommandParts(job);
    AgentPlain();
    assert (job.expression + AGENT)[|job.expression|] == ' ';
  }

  lemma ZoneLine(zone: string)
    requires NEWLINE !in zone
    ensures SettingLine("CRON_TZ=" + zone)
  {
    var line := "CRON_TZ=" + zone;
    assert line == "CRON_TZ" + ['='] + zone && line[0] == 'C';
    UpToFirst("CRON_TZ", zone, '=');
    assert NEWLINE !in "CRON_TZ=" && ' ' !in "CRON_TZ";
    assert !IsSpace('C') && TrimLeft(line) == line;
  }

  lemma ZoneIsSetting(job: Job)
    requires Typed(job)
    ensures AllSettings(ZoneSettings(job))
  {
    if job.timezone != "" {
      ZoneLine(job.timezone);
    }
  }

  lemma ReadCommand(t: Table, job: Job)
    requires Typed(job) && PlainExpression(job.expression)
    ensures ReadLine(t, CommandLine(job)) == Table(t.entries + [Entry(job.expression, job.id, t.pending)], [])
  {
    CommandIsNotIgnored(job);
    CommandIsNotSetting(job);
    CommandParts(job);
  }

  lemma BothSettings(a: seq<string>, b: seq<string>)
    requires AllSettings(a) && AllSettings(b)
    ensures AllSettings(a + b)
  {
  }

  lemma JobIsRead(lines: seq<string>, job: Job)
    requires Typed(job) && PlainExpression(job.expression) && ReadLines(lines).pending == []
    ensures ReadLines(lines + JobLines(job)) == Table(ReadLines(lines).entries + [EntryOf(job)], [])
  {
    var settings := ZoneSettings(job) + job.environment;
    ZoneIsSetting(job);
    BothSettings(ZoneSettings(job), job.environment);
    ReadSettings(lines, settings);
    assert [] + settings == settings;
    Appended(lines, settings, CommandLine(job));
    ReadSnoc(lines + settings, CommandLine(job));
    ReadCommand(ReadLines(lines + settings), job);
  }

  lemma HeaderIsIgnored()
    ensures ReadLines([HEADER_LINE]) == Table([], [])
  {
    var start := "# Managed by OpenDeploy.";
    assert HEADER_LINE == start + " Manual changes" + " will be overwritten.";
    assert HEADER_LINE[0] == start[0] == '#' && !IsSpace('#');
    assert TrimLeft(HEADER_LINE) == HEADER_LINE;
    ReadSnoc([], HEADER_LINE);
    assert [] + [HEADER_LINE] == [HEADER_LINE];
  }

  lemma HeaderWhole()
    ensures NEWLINE !in HEADER_LINE
  {
    assert NEWLINE !in "# Managed by OpenDeploy." && NEWLINE !in " Manual changes";
    assert NEWLINE !in " will be overwritten.";
  }

  lemma {:induction false} JobsAreRead(jobs: seq<Job>)
    requires AllTyped(jobs) && AllPlain(jobs)
    ensures ReadLines(FileLines(jobs)) == Table(Listed(jobs), [])
  {
    if jobs == [] {
      HeaderIsIgnored();
    } else {
      var init, last := jobs[..|jobs| - 1], jobs[|jobs| - 1];
      JobsAreRead(init);
      if last.enabled {
        JobIsRead(FileLines(init), last);
      } else {
        assert FileLines(init) + [] == FileLines(init) && Listed(init) + [] == Listed(init);
      }
    }
  }

  lemma CommandWhole(job: Job)
    requires Typed(job) && PlainExpression(job.expression)
    ensures NEWLINE !in CommandLine(job)
  {
    AgentPlain();
  }

  lemma {:induction false} FileLinesWhole(jobs: seq<Job>)
    requires AllTyped(jobs) && AllPlain(jobs)
    ensures Whole(FileLines(jobs))
  {
    if jobs == [] {
      HeaderWhole();
    } else {
      var last := jobs[|jobs| - 1];
      FileLinesWhole(jobs[..|jobs| - 1]);
      if last.enabled {
        ZoneIsSetting(last);
        CommandWhole(last);
      }
    }
  }

  // ---------------------------------------------------------------- and only then

  lemma PrefixPlain(x: string, line: string)
    requires x <= line && NEWLINE !in line && !Ignored(line)
    ensures PlainExpression(x)
  {
    if TrimLeft(x) != [] {
      assert line == x + line[|x|..];
      TrimLeftKeeps(x, line[|x|..]);
    }
  }

  lemma ExpressionPrefix(line: string)
    ensures ExpressionOf(line) <= line
  {
  }

  predicate PlainEntries(entries: seq<Entry>) {
    forall i :: 0 <= i < |entries| ==> PlainExpression(entries[i].expression)
  }

  lemma ReadLinePlain(t: Table, line: string)
    requires PlainEntries(t.entries) && NEWLINE !in line
    ensures PlainEntries(ReadLine(t, line).entries)
  {
    if !Ignored(line) && !IsSetting(line) {
      ExpressionPrefix(line);
      PrefixPlain(ExpressionOf(line), line);
    }
  }

  /** A reader of lines never finds an expression with a newline, or one that starts a comment. */
  lemma {:induction false} ReadIsPlain(lines: seq<string>)
    requires Whole(lines)
    ensures PlainEntries(ReadLines(lines).entries)
  {
    if lines != [] {
      ReadIsPlain(lines[..|lines| - 1]);
      ReadLinePlain(ReadLines(lines[..|lines| - 1]), lines[|lines| - 1]);
    }
  }

  lemma PlainEntry(entries: seq<Entry>, e: Entry)
    requires PlainEntries(entries) && e in entries
    ensures PlainExpression(e.expression)
  {
    var k :| 0 <= k < |entries| && entries[k] == e;
  }

  lemma {:induction false} ListedHas(jobs: seq<Job>, i: nat)
    requires i < |jobs| && jobs[i].enabled
    ensures EntryOf(jobs[i]) in Listed(jobs)
  {
    if i < |jobs| - 1 {
      ListedHas(jobs[..|jobs| - 1], i);
    }
  }

  /** A reader of the file finds exactly the enabled jobs, in order, each with its expression, its ID and its
      settings, if and only if every expression stays on its line and starts no comment. */
  lemma CronReadsIff(jobs: seq<Job>)
    requires AllTyped(jobs)
    ensures ReadCron(CronText(jobs)) == Listed(jobs) <==> AllPlain(jobs)
  {
    if AllPlain(jobs) {
      CronLines(jobs);
      JobsAreRead(jobs);
      FileLinesWhole(jobs);
      ReadUnlines(FileLines(jobs));
    }
    if ReadCron(CronText(jobs)) == Listed(jobs) {
      var lines := Split(CronText(jobs), NEWLINE);
      assert forall i :: 0 <= i < |lines| ==> lines[i] in lines;
      ReadIsPlain(lines);
      forall i | 0 <= i < |jobs| && jobs[i].enabled ensures PlainExpression(jobs[i].expression) {
        ListedHas(jobs, i);
        PlainEntry(ReadLines(lines).entries, EntryOf(jobs[i]));
      }
    }
  }

  // ---------------------------------------------------------------- which jobs will run

  lemma {:induction false} ListedFrom(jobs: seq<Job>, e: Entry)
    requires e in Listed(jobs)
    ensures exists i :: 0 <= i < |jobs| && jobs[i].enabled && EntryOf(jobs[i]) == e
  {
    var n := |jobs| - 1;
    if e in Listed(jobs[..n]) {
      ListedFrom(jobs[..n], e);
      var i :| 0 <= i < n && jobs[..n][i].enabled && EntryOf(jobs[..n][i]) == e;
      assert jobs[i].enabled && EntryOf(jobs[i]) == e;
    } else {
      assert jobs[n].enabled && EntryOf(jobs[n]) == e;
    }
  }

  predicate Ascending(entries: seq<Entry>) {
    forall i, j :: 0 <= i < j < |entries| ==> Less(entries[i].id, entries[j].id)
  }

  /** The entries of ordered jobs are exactly the enabled ones, in the order of their IDs, each once. */
  lemma {:induction false} ListedAscends(jobs: seq<Job>)
    requires Ordered(jobs)
    ensures Ascending(Listed(jobs))
    ensures forall i :: 0 <= i < |Listed(jobs)| ==> exists k :: 0 <= k < |jobs| && jobs[k].id == Listed(jobs)[i].id
  {
    if jobs != [] {
      var n := |jobs| - 1;
      ListedAscends(jobs[..n]);
      var before := Listed(jobs[..n]);
      forall i | 0 <= i < |before|
        ensures Less(before[i].id, jobs[n].id) && exists k :: 0 <= k < |jobs| && jobs[k].id == before[i].id {
        var k :| 0 <= k < n && jobs[..n][k].id == before[i].id;
        assert jobs[k].id == before[i].id;
      }
      if jobs[n].enabled {
        assert jobs[n].id == EntryOf(jobs[n]).id;
      }
    }
  }

  /** Validation lets no job through that is not typed. */
  ghost predicate TypedPlans(events: seq<Event>) {
    forall i :: 0 <= i < |events| && events[i].Change? ==> forall j: Job :: events[i].plan.valid(j) ==> Typed(j)
  }

  lemma StepTyped(d: Disk, request: Request, plan: Plan)
    requires AllTyped(d.jobs) && forall j: Job :: plan.valid(j) ==> Typed(j)
    ensures AllTyped(Step(d, request, plan).disk.jobs)
  {
  }

  lemma {:induction false} RunTyped(events: seq<Event>, retention: nat)
    requires TypedPlans(events)
    ensures AllTyped(After(events, retention).jobs)
  {
    if events != [] {
      var n := |events| - 1;
      RunTyped(events[..n], retention);
      match events[n]
      case Change(request, plan) => StepTyped(After(events[..n], retention), request, plan);
      case Finished(_, _) =>
    }
  }

  lemma SortTyped(jobs: seq<Job>)
    requires AllTyped(jobs)
    ensures AllTyped(Sort(jobs))
  {
    forall i | 0 <= i < |Sort(jobs)| && Sort(jobs)[i].enabled ensures Typed(Sort(jobs)[i]) {
      SameJobs(Sort(jobs), jobs, Sort(jobs)[i]);
    }
  }

  /** In every state of every run with working compensation the cron file, once written, is read as exactly
      the enabled jobs that are persisted, in the order of their IDs, if and only if their expressions are
      plain. */
  lemma RunRuns(events: seq<Event>, retention: nat)
    requires AllCareful(events, retention) && TypedPlans(events)
    ensures var d := After(events, retention);
            && (d.cron.None? ==> d.jobs == [])
            && (d.cron.Some? ==>
                  (ReadCron(d.cron.value) == Listed(Sort(d.jobs)) <==> AllPlain(Sort(d.jobs))))
            && Ascending(Listed(Sort(d.jobs)))
  {
    var d := After(events, retention);
    RunSound(events, retention);
    RunDistinct(events, retention);
    RunTyped(events, retention);
    SortTyped(d.jobs);
    SortOrdered(d.jobs);
    ListedAscends(Sort(d.jobs));
    CronReadsIff(Sort(d.jobs));
  }

  /** An expression that starts with `#`, which validation lets through, makes the job's line a comment: the
      job is enabled, the request succeeds, and nothing will start it. */
  lemma CommentedJobIsNotListed(job: Job)
    requires Typed(job) && job.enabled && NEWLINE !in job.expression
    requires TrimLeft(job.expression) != [] && TrimLeft(job.expression)[0] == '#'
    ensures ReadCron(CronText([job])) == []
  {
    var settings := ZoneSettings(job) + job.environment;
    ZoneIsSetting(job);
    BothSettings(ZoneSettings(job), job.environment);
    HeaderIsIgnored();
    HeaderWhole();
    ReadSettings([HEADER_LINE], settings);
    Appended([HEADER_LINE], settings, CommandLine(job));
    ReadSnoc([HEADER_LINE] + settings, CommandLine(job));
    CommentedIsIgnored(job);
    OneJobLines(job);
    CronLines([job]);
    ReadUnlines(FileLines([job]));
  }

  lemma CommentedIsIgnored(job: Job)
    requires TrimLeft(job.expression) != [] && TrimLeft(job.expression)[0] == '#'
    ensures Ignored(CommandLine(job))
  {
    var tail := AGENT + "=" + job.id + " # opendeploy:" + job.id;
    AgentPlain();
    assert CommandLine(job) == job.expression + tail && tail[0] == AGENT[0] && tail[1] == AGENT[1];
    FirstVisible(job.expression, tail);
  }

  lemma OneJobLines(job: Job)
    requires Typed(job) && job.enabled && NEWLINE !in job.expression
    ensures FileLines([job]) == [HEADER_LINE] + JobLines(job) && Whole(FileLines([job]))
  {
    assert [job][..0] == [];
    HeaderWhole();
    ZoneIsSetting(job);
    AgentPlain();
  }
}
