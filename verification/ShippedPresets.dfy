/**
  When a preset's own text is a rendering of its own settings: a condition to check line by line, and the
  texts that are shipped.
*/
module ShippedPresets {
  import opened Options
  import opened Text
  import opened JailLines
  import opened Jail
  import opened Presets
  import opened PresetFiles

  /** A header and one setting per line. */
  function PresetLines(name: string, pairs: seq<Entry>): seq<string> {
    if pairs == [] then ["[" + name + "]"]
    else
      var last := pairs[|pairs| - 1];
      PresetLines(name, pairs[..|pairs| - 1]) + [Write(last.0, last.1)]
  }

  /** A setting as the renderer writes it; a managed one has a value that validates to itself. */
  ghost predicate WellWritten(address: string -> bool, e: Entry) {
    && PlainKey(e.0) && NEWLINE !in e.0 && PlainValue(e.1)
    && (e.0 in MANAGED ==> Normal(address, KindOf(e.0), e.1) == Some(e.1))
  }

  predicate PlainValue(value: string) {
    value != "" && Trimmed(value) && NEWLINE !in value
  }

  predicate DistinctKeys(pairs: seq<Entry>) {
    forall i, j :: 0 <= i < j < |pairs| ==> pairs[i].0 != pairs[j].0
  }

  predicate SetsMandatory(pairs: seq<Entry>) {
    forall k :: k in MANDATORY ==> exists i :: 0 <= i < |pairs| && pairs[i].0 == k
  }

  predicate PlainName(name: string) {
    '=' !in name && NEWLINE !in name
  }

  ghost predicate AllWellWritten(address: string -> bool, pairs: seq<Entry>) {
    forall i :: 0 <= i < |pairs| ==> WellWritten(address, pairs[i])
  }

  lemma HeaderLine(name: string)
    requires PlainName(name)
    ensures var line := "[" + name + "]";
            EntryOf(line).None? && KeyOf(line).None? && !Blank(line) && NEWLINE !in line && line != []
  {
    var line := "[" + name + "]";
    assert line[0] == '[' && line[|line| - 1] == ']';
    TrimTrimmed(line);
  }

  lemma PairLine(address: string -> bool, e: Entry)
    requires WellWritten(address, e)
    ensures LawfulWrite(LEXER, e.0, e.1)
    ensures NEWLINE !in Write(e.0, e.1) && Write(e.0, e.1) != []
  {
    WriteLawful(e.0, e.1);
  }

  function PairMap(pairs: seq<Entry>): Settings {
    if pairs == [] then map[]
    else PairMap(pairs[..|pairs| - 1])[pairs[|pairs| - 1].0 := pairs[|pairs| - 1].1]
  }

  lemma {:induction false} PairMapAt(pairs: seq<Entry>, k: string)
    requires DistinctKeys(pairs)
    ensures forall i :: 0 <= i < |pairs| && pairs[i].0 == k ==> k in PairMap(pairs) && PairMap(pairs)[k] == pairs[i].1
    ensures k in PairMap(pairs) ==> exists i :: 0 <= i < |pairs| && pairs[i].0 == k
  {
    if pairs != [] {
      PairMapAt(pairs[..|pairs| - 1], k);
    }
  }

  lemma {:induction false} LinesMean(address: string -> bool, name: string, pairs: seq<Entry>)
    requires PlainName(name) && AllWellWritten(address, pairs)
    ensures Values(LEXER, PresetLines(name, pairs)) == PairMap(pairs)
  {
    if pairs == [] {
      HeaderLine(name);
      assert PresetLines(name, pairs)[..0] == [];
    } else {
      var init, last := pairs[..|pairs| - 1], pairs[|pairs| - 1];
      LinesMean(address, name, init);
      PairLine(address, last);
      WriteValues(LEXER, PresetLines(name, init), last.0, last.1);
    }
  }

  lemma PairValues(address: string -> bool, name: string, pairs: seq<Entry>, k: string)
    requires PlainName(name) && AllWellWritten(address, pairs) && DistinctKeys(pairs)
    ensures var values := Values(LEXER, PresetLines(name, pairs));
            && (forall i :: 0 <= i < |pairs| && pairs[i].0 == k ==> k in values && values[k] == pairs[i].1)
            && (k in values ==> exists i :: 0 <= i < |pairs| && pairs[i].0 == k)
  {
    LinesMean(address, name, pairs);
    PairMapAt(pairs, k);
  }

  lemma {:induction false} LineOrigin(name: string, pairs: seq<Entry>, line: string)
    requires line in PresetLines(name, pairs)
    ensures line == "[" + name + "]" || exists i :: 0 <= i < |pairs| && line == Write(pairs[i].0, pairs[i].1)
  {
    if pairs != [] {
      var init, last := pairs[..|pairs| - 1], pairs[|pairs| - 1];
      if line in PresetLines(name, init) {
        LineOrigin(name, init, line);
        assert forall i :: 0 <= i < |init| ==> init[i] == pairs[i];
      } else {
        assert line == Write(last.0, last.1);
      }
    }
  }

  // ---------------------------------------------------------------- its own settings

  function OwnSettings(values: Settings): Settings {
    map k | k in MANAGED :: Lookup(values, k)
  }

  lemma EmptyIsNormal(address: string -> bool, k: string)
    requires k in MANAGED && k !in MANDATORY
    ensures Normal(address, KindOf(k), "") == Some("")
  {
    TrimTrimmed("");
    assert Fields("") == [];
    assert k == "banaction" || k == "ignoreip" || k == "logpath" || k == "port";
  }

  lemma OwnSettingsStable(address: string -> bool, name: string, pairs: seq<Entry>)
    requires PlainName(name) && AllWellWritten(address, pairs) && DistinctKeys(pairs)
    requires MANDATORY <= Values(LEXER, PresetLines(name, pairs)).Keys
    ensures Stable(address, OwnSettings(Values(LEXER, PresetLines(name, pairs))))
  {
    var values := Values(LEXER, PresetLines(name, pairs));
    forall k | k in MANAGED ensures Normal(address, KindOf(k), Lookup(values, k)) == Some(Lookup(values, k)) {
      PairValues(address, name, pairs, k);
      if k in values {
        var i :| 0 <= i < |pairs| && pairs[i].0 == k;
        assert WellWritten(address, pairs[i]);
      } else {
        EmptyIsNormal(address, k);
      }
    }
  }

  /** Every line is one that rendering leaves alone. */
  lemma LineIdle(address: string -> bool, name: string, pairs: seq<Entry>, line: string)
    requires PlainName(name) && AllWellWritten(address, pairs) && DistinctKeys(pairs)
    requires line in PresetLines(name, pairs)
    ensures var own := OwnSettings(Values(LEXER, PresetLines(name, pairs)));
            Rewritten(LEXER, own, line) == line && !Blank(line) && NEWLINE !in line && line != []
  {
    LineOrigin(name, pairs, line);
    if line == "[" + name + "]" {
      HeaderLine(name);
    } else {
      var i :| 0 <= i < |pairs| && line == Write(pairs[i].0, pairs[i].1);
      PairLine(address, pairs[i]);
      PairValues(address, name, pairs, pairs[i].0);
    }
  }

  /** Nothing is missing from a text with its own settings. */
  lemma NothingMissing(lines: seq<string>)
    requires Good(OwnSettings(Values(LEXER, lines)))
    ensures var own := OwnSettings(Values(LEXER, lines));
            Missing(LEXER, own, Seen(LEXER, own, lines), ADDED) == []
  {
    var own := OwnSettings(Values(LEXER, lines));
    JailLawful(own);
    SeenKeys(LEXER, own, lines);
    MissingIdle(LEXER, own, Seen(LEXER, own, lines), ADDED);
  }

  lemma OwnRendering(address: string -> bool, name: string, pairs: seq<Entry>)
    requires PlainName(name) && AllWellWritten(address, pairs) && DistinctKeys(pairs)
    requires MANDATORY <= Values(LEXER, PresetLines(name, pairs)).Keys
    ensures var lines := PresetLines(name, pairs);
            Rendered(LEXER, OwnSettings(Values(LEXER, lines)), ADDED, lines) == lines
  {
    var lines := PresetLines(name, pairs);
    var own := OwnSettings(Values(LEXER, lines));
    forall line | line in lines ensures Rewritten(LEXER, own, line) == line && !Blank(line) {
      LineIdle(address, name, pairs, line);
    }
    OwnSettingsStable(address, name, pairs);
    StableIsGood(address, own);
    NothingMissing(lines);
    RenderedIdle(LEXER, own, ADDED, lines);
  }

  lemma PresetLinesWhole(address: string -> bool, name: string, pairs: seq<Entry>)
    requires PlainName(name) && AllWellWritten(address, pairs) && DistinctKeys(pairs)
    ensures PresetLines(name, pairs) != []
    ensures forall line :: line in PresetLines(name, pairs) ==> NEWLINE !in line && line != []
  {
    forall line | line in PresetLines(name, pairs) ensures NEWLINE !in line && line != [] {
      LineIdle(address, name, pairs, line);
    }
  }

  /** A text whose lines are well written, with distinct keys and the mandatory ones among them, is a
      rendering of its own settings. */
  lemma WellWrittenIsFromSettings(address: string -> bool, name: string, pairs: seq<Entry>)
    requires PlainName(name) && AllWellWritten(address, pairs) && DistinctKeys(pairs)
    requires SetsMandatory(pairs)
    ensures var text := FileText(PresetLines(name, pairs));
            MANDATORY <= Parsed(text).Keys && FromSettings(address, text, text)
  {
    var lines := PresetLines(name, pairs);
    forall k | k in MANDATORY ensures k in Values(LEXER, lines) {
      PairValues(address, name, pairs, k);
    }
    OwnSettingsStable(address, name, pairs);
    OwnRendering(address, name, pairs);
    PresetLinesWhole(address, name, pairs);
    LinesOfText(lines);
    ParsedText(lines);
    assert RenderedJail(FileText(lines), OwnSettings(Values(LEXER, lines))) == FileText(lines);
  }

  // ---------------------------------------------------------------- the texts

  lemma ManagedPair(address: string -> bool, k: string, v: string)
    requires k in MANAGED && v != "" && Normal(address, KindOf(k), v) == Some(v)
    ensures WellWritten(address, (k, v))
  {
    ManagedPlain(k);
    NormalIsStable(address, KindOf(k), v);
  }

  lemma Times(address: string -> bool)
    ensures Normal(address, BanTime, "24h") == Some("24h") && Normal(address, FindTime, "10m") == Some("10m")
  {
    TrimTrimmed("24h");
    TrimTrimmed("10m");
    assert "24h"[..2] == "24" && "10m"[..2] == "10";
  }

  lemma Retries(address: string -> bool, d: char)
    requires '1' <= d <= '9'
    ensures Normal(address, MaxRetry, [d]) == Some([d])
  {
    TrimTrimmed([d]);
    assert [d][..0] == "";
    assert Number([d]) == (d - '0') as nat;
  }

  lemma Backends(address: string -> bool)
    ensures Normal(address, Backend, "auto") == Some("auto") && Normal(address, Backend, "systemd") == Some("systemd")
  {
    TrimTrimmed("auto");
    TrimTrimmed("systemd");
  }

  lemma OnePort(address: string -> bool, port: string)
    requires PortPart(port) && Trimmed(port)
    ensures Normal(address, Port, port) == Some(port)
  {
    TrimTrimmed(port);
    SplitNone(port, ',');
  }

  lemma TwoPorts(address: string -> bool, a: string, b: string)
    requires PortPart(a) && PortPart(b) && Trimmed(a + [','] + b)
    ensures Normal(address, Port, a + [','] + b) == Some(a + [','] + b)
  {
    TrimTrimmed(a + [','] + b);
    SplitFirst(a, b, ',');
    SplitNone(b, ',');
  }

  lemma LogIsNormal(address: string -> bool, log: string)
    requires LogFile(log) && Trimmed(log)
    ensures Normal(address, LogPath, log) == Some(log)
  {
    TrimTrimmed(log);
  }

  const ACCESS := "/var/log/nginx/access.log"
  const ERRORS := "/var/log/nginx/error.log"

  lemma AccessLog(address: string -> bool)
    ensures Normal(address, LogPath, ACCESS) == Some(ACCESS)
  {
    LogIsNormal(address, ACCESS);
  }

  lemma ErrorLog(address: string -> bool)
    ensures Normal(address, LogPath, ERRORS) == Some(ERRORS)
  {
    LogIsNormal(address, ERRORS);
  }

  lemma ManagedKinds()
    ensures "bantime" in MANAGED && KindOf("bantime") == BanTime
    ensures "findtime" in MANAGED && KindOf("findtime") == FindTime
    ensures "maxretry" in MANAGED && KindOf("maxretry") == MaxRetry
    ensures "backend" in MANAGED && KindOf("backend") == Backend
    ensures "logpath" in MANAGED && KindOf("logpath") == LogPath
    ensures "port" in MANAGED && KindOf("port") == Port
  {
  }

  lemma OtherPairs(address: string -> bool, filter: string)
    requires PlainValue(filter)
    ensures WellWritten(address, ("enabled", "true")) && WellWritten(address, ("usedns", "no"))
    ensures WellWritten(address, ("filter", filter))
  {
    assert "enabled" !in MANAGED && "usedns" !in MANAGED && "filter" !in MANAGED;
  }

  function CommonPairs(retry: char): seq<Entry> {
    [("maxretry", [retry]), ("findtime", "10m"), ("bantime", "24h"), ("usedns", "no")]
  }

  /** The jail of the sshd preset. */
  function SshPairs(): seq<Entry> {
    [("enabled", "true"), ("filter", "sshd"), ("backend", "systemd"), ("port", "ssh")] + CommonPairs('5')
  }

  /** The jails of the four presets that read an nginx log. */
  function WebPairs(filter: string, log: string, retry: char): seq<Entry> {
    [("enabled", "true"), ("filter", filter), ("port", "http,https"), ("logpath", log), ("backend", "auto")]
    + CommonPairs(retry)
  }

  lemma CommonWellWritten(address: string -> bool, retry: char)
    requires '1' <= retry <= '9'
    ensures AllWellWritten(address, CommonPairs(retry))
  {
    ManagedKinds();
    Times(address);
    Retries(address, retry);
    ManagedPair(address, "maxretry", [retry]);
    ManagedPair(address, "findtime", "10m");
    ManagedPair(address, "bantime", "24h");
    OtherPairs(address, "x");
  }

  lemma BackendPairs(address: string -> bool)
    ensures WellWritten(address, ("backend", "auto")) && WellWritten(address, ("backend", "systemd"))
  {
    ManagedKinds();
    Backends(address);
    ManagedPair(address, "backend", "auto");
    ManagedPair(address, "backend", "systemd");
  }

  lemma SshPort(address: string -> bool)
    ensures WellWritten(address, ("port", "ssh"))
  {
    ManagedKinds();
    OnePort(address, "ssh");
    ManagedPair(address, "port", "ssh");
  }

  lemma WebPorts(address: string -> bool)
    ensures WellWritten(address, ("port", "http,https"))
  {
    ManagedKinds();
    assert "http" + [','] + "https" == "http,https";
    TwoPorts(address, "http", "https");
    ManagedPair(address, "port", "http,https");
  }

  lemma SshWellWritten(address: string -> bool)
    ensures AllWellWritten(address, SshPairs())
  {
    BackendPairs(address);
    SshPort(address);
    OtherPairs(address, "sshd");
    CommonWellWritten(address, '5');
  }

  lemma WebWellWritten(address: string -> bool, filter: string, log: string, retry: char)
    requires PlainValue(filter) && '1' <= retry <= '9'
    requires log != "" && Normal(address, LogPath, log) == Some(log)
    ensures AllWellWritten(address, WebPairs(filter, log, retry))
  {
    ManagedKinds();
    ManagedPair(address, "logpath", log);
    BackendPairs(address);
    WebPorts(address);
    OtherPairs(address, filter);
    CommonWellWritten(address, retry);
  }

  lemma SshKeys()
    ensures DistinctKeys(SshPairs()) && SetsMandatory(SshPairs())
  {
    var pairs := SshPairs();
    assert pairs[2].0 == "backend" && pairs[4].0 == "maxretry" && pairs[5].0 == "findtime" && pairs[6].0 == "bantime";
  }

  lemma WebKeys(filter: string, log: string, retry: char)
    ensures DistinctKeys(WebPairs(filter, log, retry)) && SetsMandatory(WebPairs(filter, log, retry))
  {
    var pairs := WebPairs(filter, log, retry);
    assert pairs[4].0 == "backend" && pairs[5].0 == "maxretry" && pairs[6].0 == "findtime" && pairs[7].0 == "bantime";
  }

  function PresetText(name: string, pairs: seq<Entry>): string {
    FileText(PresetLines(name, pairs))
  }

  /** The text has the mandatory keys and is what its own settings render to. */
  ghost predicate SelfRendered(address: string -> bool, text: string) {
    MANDATORY <= Parsed(text).Keys && FromSettings(address, text, text)
  }

  lemma SshIsSelfRendered(address: string -> bool, name: string)
    requires PlainName(name)
    ensures SelfRendered(address, PresetText(name, SshPairs()))
  {
    SshWellWritten(address);
    SshKeys();
    WellWrittenIsFromSettings(address, name, SshPairs());
  }

  lemma WebIsSelfRendered(address: string -> bool, name: string, filter: string, log: string, retry: char)
    requires PlainName(name) && PlainValue(filter) && '1' <= retry <= '9'
    requires log != "" && Normal(address, LogPath, log) == Some(log)
    ensures SelfRendered(address, PresetText(name, WebPairs(filter, log, retry)))
  {
    WebWellWritten(address, filter, log, retry);
    WebKeys(filter, log, retry);
    WellWrittenIsFromSettings(address, name, WebPairs(filter, log, retry));
  }

  lemma Names()
    ensures PlainName("opendeploy-sshd")
    ensures PlainName("opendeploy-nginx-scanners") && PlainName("opendeploy-nginx-auth")
    ensures PlainName("opendeploy-nginx-bad-bots") && PlainName("opendeploy-php-probes")
  {
  }

  lemma Filters()
    ensures PlainValue("opendeploy-nginx-scanners") && PlainValue("nginx-http-auth")
    ensures PlainValue("opendeploy-nginx-bad-bots") && PlainValue("opendeploy-php-probes")
  {
  }

  function SshText(): string {
    PresetText("opendeploy-sshd", SshPairs())
  }

  function ScannersText(): string {
    PresetText("opendeploy-nginx-scanners", WebPairs("opendeploy-nginx-scanners", ACCESS, '5'))
  }

  function AuthText(): string {
    PresetText("opendeploy-nginx-auth", WebPairs("nginx-http-auth", ERRORS, '5'))
  }

  function BotsText(): string {
    PresetText("opendeploy-nginx-bad-bots", WebPairs("opendeploy-nginx-bad-bots", ACCESS, '1'))
  }

  function ProbesText(): string {
    PresetText("opendeploy-php-probes", WebPairs("opendeploy-php-probes", ACCESS, '5'))
  }

  lemma SshShipped(address: string -> bool)
    ensures SelfRendered(address, SshText())
  {
    Names();
    SshIsSelfRendered(address, "opendeploy-sshd");
  }

  lemma ScannersShipped(address: string -> bool)
    ensures SelfRendered(address, ScannersText())
  {
    Names();
    Filters();
    AccessLog(address);
    WebIsSelfRendered(address, "opendeploy-nginx-scanners", "opendeploy-nginx-scanners", ACCESS, '5');
  }

  lemma AuthShipped(address: string -> bool)
    ensures SelfRendered(address, AuthText())
  {
    Names();
    Filters();
    ErrorLog(address);
    WebIsSelfRendered(address, "opendeploy-nginx-auth", "nginx-http-auth", ERRORS, '5');
  }

  lemma BotsShipped(address: string -> bool)
    ensures SelfRendered(address, BotsText())
  {
    Names();
    Filters();
    AccessLog(address);
    WebIsSelfRendered(address, "opendeploy-nginx-bad-bots", "opendeploy-nginx-bad-bots", ACCESS, '1');
  }

  lemma ProbesShipped(address: string -> bool)
    ensures SelfRendered(address, ProbesText())
  {
    Names();
    Filters();
    AccessLog(address);
    WebIsSelfRendered(address, "opendeploy-php-probes", "opendeploy-php-probes", ACCESS, '5');
  }

  ghost predicate Shipped(text: string) {
    text == SshText() || text == ScannersText() || text == AuthText() || text == BotsText() || text == ProbesText()
  }

  /** All shipped texts are renderings of their own settings. */
  lemma ShippedIsSelfRendered(address: string -> bool, text: string)
    requires Shipped(text)
    ensures SelfRendered(address, text)
  {
    SshShipped(address);
    ScannersShipped(address);
    AuthShipped(address);
    BotsShipped(address);
    ProbesShipped(address);
  }

  /** For a shipped preset, after any run, disabling and enabling again reproduces the jail text if and only
      if enabling goes by a text with the same settings; so it always does when the jail could be read while
      disabling and the kept one while enabling. */
  lemma ShippedReenables(preset: Preset, calls: seq<Call>, text: string, p: Plan, q: Plan)
    requires Shipped(preset.base) && Run(preset, calls).jail == Some(text)
    requires Disabled(Run(preset, calls), p).ok && Enabled(preset, Disabled(Run(preset, calls), p).files, q).ok
    ensures var off := Disabled(Run(preset, calls), p).files;
            && (Enabled(preset, off, q).files.jail == Some(text)
                <==> SameSettings(preset.address, Current(preset, off, q), text))
            && (p.snapFirst && q.readKept ==> Enabled(preset, off, q).files.jail == Some(text))
  {
    ShippedIsSelfRendered(preset.address, preset.base);
    DisableThenEnable(preset, calls, text, p, q);
  }
}
