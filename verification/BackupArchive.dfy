/**
  Verified extraction of a backup archive and the archive that Create writes.  The tar stream is a
  sequence of entries after a manifest; the digest is any deterministic function with 64 hex digits.
*/
module BackupArchive {
  import opened Options
  import Text
  import opened Paths

  type Bytes = seq<bv8>
  type Digest = Bytes -> string

  newtype int64 = x: int | -0x8000_0000_0000_0000 <= x < 0x8000_0000_0000_0000

  const SCHEMA := "opendeploy.backup/v1"
  const DIGEST_LENGTH := 64
  const MAX_MODE := 0x1ff  // octal 0777
  const DATA := "data/"
  const MAX_MANIFEST := 0x100_0000  // 16 MiB

  /** The length of the JSON text of a manifest. */
  type Encoding = Manifest -> nat

  datatype Source = Source(id: string, path: string, required: bool, database: bool, file: bool)

  datatype Config = Config(backupDir: string, stateDir: string, sources: seq<Source>, maxEntries: int, maxBytes: int64)

  datatype Entry = Entry(source: string, path: string, sha256: string, size: int64, mode: nat)

  datatype Manifest = Manifest(schema: string, id: string, created: nat, entries: seq<Entry>, total: int64)

  /** `body` is what can be read of the entry; a truncated stream yields less than `size`. */
  datatype Tar = Tar(name: string, regular: bool, size: int64, body: Bytes)

  /** `manifest` is absent when the first entry is not a readable manifest, `manifestSize` is that
      entry's size; `intact` is false when reading past the last data entry fails instead of reaching
      the end. */
  datatype Archive = Archive(manifest: Option<Manifest>, manifestSize: nat, data: seq<Tar>, intact: bool)

  datatype Failure = Rejected | Interrupted

  datatype Extraction = Extracted(manifest: Manifest, files: map<string, Bytes>) | Failed(failure: Failure)

  // ---------------------------------------------------------------- names

  predicate SafeSourceId(id: string) {
    id != [] && forall i :: 0 <= i < |id| ==> 'a' <= id[i] <= 'z' || '0' <= id[i] <= '9' || id[i] == '-' || id[i] == '_'
  }

  /** The IDs of the default configuration are accepted. */
  lemma DefaultIdsAreSafe()
    ensures forall id :: id in ["panel", "database", "sites", "ssl", "nginx", "fail2ban"] ==> SafeSourceId(id)
    ensures forall id :: id in ["cron", "cron-state", "ufw", "nftables", "apache", "php"] ==> SafeSourceId(id)
    ensures forall id :: id in ["mysql", "postgresql", "systemd-core", "systemd-agent"] ==> SafeSourceId(id)
  {
  }

  /** Separators, dots, capitals and blanks are not. */
  lemma UnsafeIds(id: string, c: char)
    requires c in id && (c == SLASH || c == '.' || c == '\\' || c == ' ' || 'A' <= c <= 'Z')
    ensures !SafeSourceId(id)
  {
  }

  /** safeRelative: a relative path that cleaning leaves as it is and that does not climb. */
  predicate SafeRelative(path: string) {
    path != "" && '\\' !in path && !IsAbs(path) && Clean(path) == path && path != ".." && !("../" <= path)
  }

  /** The safe paths are `.` and those whose segments are all ordinary names. */
  lemma SafeRelativeIff(path: string)
    ensures SafeRelative(path) <==> path == "." || ('\\' !in path && AllOrdinary(Text.Split(path, SLASH)))
  {
    if path == "." {
      DotIsClean();
    } else if AllOrdinary(Text.Split(path, SLASH)) {
      OrdinaryIsClean(path);
      NoClimb(path);
    } else if SafeRelative(path) {
      CleanIsOrdinary(path);
    }
  }

  lemma DotIsClean()
    ensures Clean(".") == "." && !IsAbs(".")
  {
    Text.SplitNone(".", SLASH);
    assert ["."][..0] == [] && Segments(".") == [];
  }

  lemma Climbing(path: string)
    requires path == ".." || "../" <= path
    ensures Text.Split(path, SLASH)[0] == ".."
  {
    if path == ".." {
      Text.SplitNone("..", SLASH);
    } else {
      assert path == ".." + [SLASH] + path[3..];
      Text.SplitFirst("..", path[3..], SLASH);
    }
  }

  lemma NoClimb(path: string)
    requires AllOrdinary(Text.Split(path, SLASH))
    ensures path != ".." && !("../" <= path)
  {
    assert Ordinary(Text.Split(path, SLASH)[0]);
    if path == ".." || "../" <= path {
      Climbing(path);
    }
  }

  /** Any list of ordinary names makes a safe path. */
  lemma NamesAreSafe(names: seq<string>)
    requires names != [] && AllOrdinary(names) && forall i :: 0 <= i < |names| ==> '\\' !in names[i]
    ensures SafeRelative(Text.Join(names, SLASH)) && Text.Split(Text.Join(names, SLASH), SLASH) == names
  {
    assert forall line :: line in names ==> SLASH !in line;
    Text.SplitJoin(names, SLASH);
    JoinHolds(names, '\\');
    SafeRelativeIff(Text.Join(names, SLASH));
  }

  lemma {:induction false} JoinHolds(names: seq<string>, c: char)
    requires c != SLASH && forall i :: 0 <= i < |names| ==> c !in names[i]
    ensures c !in Text.Join(names, SLASH)
  {
    if |names| > 1 {
      JoinHolds(names[1..], c);
    }
  }

  /** A safe path, joined to any absolute directory, is the directory or stays below it. */
  lemma SafePathStays(dir: string, path: string)
    requires IsAbs(dir) && SafeRelative(path)
    ensures IsAbs(JoinPath(dir, path)) && Segments(dir) <= Segments(JoinPath(dir, path))
    ensures Segments(JoinPath(dir, path))
            == if path == "." then Segments(dir) else Segments(dir) + Text.Split(path, SLASH)
  {
    SafeRelativeIff(path);
    CleanSegments(dir + [SLASH] + path);
    if path == "." {
      DotJoined(dir);
    } else {
      JoinedSegments(dir, path);
    }
  }

  lemma DotJoined(dir: string)
    requires IsAbs(dir)
    ensures Segments(dir + [SLASH] + ".") == Segments(dir)
  {
    Text.SplitBetween(dir, ".", SLASH);
    Text.SplitNone(".", SLASH);
    var segments := Text.Split(dir, SLASH) + ["."];
    assert segments[..|segments| - 1] == Text.Split(dir, SLASH);
  }

  function Key(e: Entry): string {
    e.source + "/" + e.path
  }

  lemma ShorterSourceDiffers(a: Entry, b: Entry)
    requires SafeSourceId(b.source) && |a.source| < |b.source|
    ensures Key(a) != Key(b)
  {
    assert Key(a)[|a.source|] == '/' && Key(b)[|a.source|] == b.source[|a.source|];
  }

  /** Source IDs hold no slash, so a key determines its source and its path. */
  lemma KeyInjective(a: Entry, b: Entry)
    requires SafeSourceId(a.source) && SafeSourceId(b.source) && Key(a) == Key(b)
    ensures a.source == b.source && a.path == b.path
  {
    if |a.source| < |b.source| {
      ShorterSourceDiffers(a, b);
    } else if |b.source| < |a.source| {
      ShorterSourceDiffers(b, a);
    } else {
      assert a.source == Key(a)[..|a.source|] == Key(b)[..|b.source|] == b.source;
      assert a.path == Key(a)[|a.source| + 1..] == Key(b)[|b.source| + 1..] == b.path;
    }
  }

  /** Extracted files and rollback snapshots share the staging directory: an extracted file is where a
      snapshot goes exactly when its source is called rollback and its path is the snapshot's number. */
  lemma KeyMeetsSnapshotIff(e: Entry, snapshot: string)
    requires SafeSourceId(e.source)
    ensures Key(e) == "rollback/" + snapshot <==> e.source == "rollback" && e.path == snapshot
  {
    var other := Entry("rollback", snapshot, "", 0, 0);
    assert Key(other) == "rollback/" + snapshot;
    if Key(e) == Key(other) {
      KeyInjective(e, other);
    }
  }

  lemma KeyOutsideRollback(e: Entry, snapshot: string)
    requires SafeSourceId(e.source) && e.source != "rollback"
    ensures Key(e) != "rollback/" + snapshot
  {
    KeyMeetsSnapshotIff(e, snapshot);
  }

  // ---------------------------------------------------------------- what is accepted

  function Sum(entries: seq<Entry>): int {
    if entries == [] then 0 else Sum(entries[..|entries| - 1]) + entries[|entries| - 1].size as int
  }

  predicate ValidEntry(e: Entry) {
    SafeSourceId(e.source) && SafeRelative(e.path) && |e.sha256| == DIGEST_LENGTH && 0 <= e.size && e.mode <= MAX_MODE
  }

  ghost predicate DistinctKeys(entries: seq<Entry>) {
    forall i, j :: 0 <= i < j < |entries| ==> Key(entries[i]) != Key(entries[j])
  }

  predicate Covered(sources: seq<Source>, entries: seq<Entry>) {
    forall s :: s in sources && s.required ==> exists e :: e in entries && e.source == s.id
  }

  ghost predicate ValidManifest(config: Config, m: Manifest) {
    && m.schema == SCHEMA && m.id != "" && m.created != 0
    && |m.entries| <= config.maxEntries
    && Wellformed(m.entries)
    && Sum(m.entries) == m.total as int <= config.maxBytes as int
    && Covered(config.sources, m.entries)
  }

  predicate Matches(e: Entry, t: Tar, digest: Digest) {
    t.regular && t.name == DATA + Key(e) && t.size == e.size && 0 <= e.size as int <= |t.body|
    && digest(t.body[..e.size]) == e.sha256
  }

  ghost predicate Announced(entries: seq<Entry>, t: Tar, digest: Digest) {
    exists e :: e in entries && Matches(e, t, digest)
  }

  ghost predicate AllAnnounced(entries: seq<Entry>, data: seq<Tar>, digest: Digest) {
    forall t :: t in data ==> Announced(entries, t, digest)
  }

  ghost predicate Present(e: Entry, data: seq<Tar>, digest: Digest) {
    exists t :: t in data && Matches(e, t, digest)
  }

  ghost predicate DistinctNames(data: seq<Tar>) {
    forall j, k :: 0 <= j < k < |data| ==> data[j].name != data[k].name
  }

  /** The data entries and the manifest entries correspond one to one. */
  ghost predicate Bijective(entries: seq<Entry>, data: seq<Tar>, digest: Digest) {
    && AllAnnounced(entries, data, digest)
    && (forall e :: e in entries ==> Present(e, data, digest))
    && DistinctNames(data)
  }

  ghost predicate ValidConfig(config: Config) {
    && IsAbs(config.backupDir) && IsAbs(config.stateDir)
    && (forall s :: s in config.sources ==> SafeSourceId(s.id) && IsAbs(s.path))
    && (forall i, j :: 0 <= i < j < |config.sources| ==> config.sources[i].id != config.sources[j].id)
    && config.maxEntries > 0 && config.maxBytes > 0
  }

  ghost predicate Accepts(config: Config, a: Archive, digest: Digest) {
    && ValidConfig(config)
    && a.manifestSize <= MAX_MANIFEST
    && a.manifest.Some? && ValidManifest(config, a.manifest.value)
    && a.intact && Bijective(a.manifest.value.entries, a.data, digest)
  }

  /** Entry `e` was read from `data` and its bytes are in `files`. */
  ghost predicate Taken(e: Entry, data: seq<Tar>, files: map<string, Bytes>, digest: Digest) {
    exists t :: t in data && Matches(e, t, digest) && Key(e) in files && files[Key(e)] == t.body[..e.size]
  }

  /** What extraction leaves in staging: for each manifest entry the verified bytes of its data entry. */
  ghost predicate Holds(files: map<string, Bytes>, entries: seq<Entry>, data: seq<Tar>, digest: Digest) {
    && (forall e :: e in entries ==> Taken(e, data, files, digest))
    && (forall k :: k in files ==> exists e :: e in entries && Key(e) == k)
  }

  // ---------------------------------------------------------------- lemmas on sums

  lemma {:induction false} SumPrefix(entries: seq<Entry>, n: nat)
    requires n <= |entries| && forall e :: e in entries ==> 0 <= e.size
    ensures 0 <= Sum(entries[..n]) <= Sum(entries)
    decreases |entries|
  {
    if n == |entries| {
      assert entries[..n] == entries;
      if n > 0 {
        SumPrefix(entries[..n - 1], n - 1);
      }
    } else {
      var short := entries[..|entries| - 1];
      assert short[..n] == entries[..n];
      SumPrefix(short, n);
    }
  }

  lemma SumStep(entries: seq<Entry>, n: nat)
    requires n < |entries|
    ensures Sum(entries[..n + 1]) == Sum(entries[..n]) + entries[n].size as int
  {
    assert entries[..n + 1][..n] == entries[..n];
  }

  // ---------------------------------------------------------------- Config.validate

  method Validate(config: Config) returns (ok: bool)
    ensures ok <==> ValidConfig(config)
  {
    if !IsAbs(config.backupDir) || !IsAbs(config.stateDir) {
      return false;
    }
    var seen: set<string> := {};
    for i := 0 to |config.sources|
      invariant forall k :: 0 <= k < i ==> SafeSourceId(config.sources[k].id) && IsAbs(config.sources[k].path)
      invariant forall k :: 0 <= k < i ==> config.sources[k].id in seen
      invariant forall id :: id in seen ==> exists k :: 0 <= k < i && config.sources[k].id == id
      invariant forall k, l :: 0 <= k < l < i ==> config.sources[k].id != config.sources[l].id
    {
      var source := config.sources[i];
      if !SafeSourceId(source.id) || source.id in seen || !IsAbs(source.path) {
        return false;
      }
      seen := seen + {source.id};
    }
    return config.maxEntries > 0 && config.maxBytes > 0;
  }

  // ---------------------------------------------------------------- extractVerified

  /** `expected` holds exactly the given entries, by key. */
  ghost predicate Indexed(entries: seq<Entry>, expected: map<string, Entry>) {
    && (forall e :: e in entries ==> Key(e) in expected && expected[Key(e)] == e)
    && (forall key :: key in expected ==> expected[key] in entries && Key(expected[key]) == key)
  }

  ghost predicate Wellformed(entries: seq<Entry>) {
    (forall e :: e in entries ==> ValidEntry(e)) && DistinctKeys(entries)
  }

  lemma PrefixWellformed(entries: seq<Entry>, n: nat, maxBytes: int)
    requires n <= |entries| && Wellformed(entries) && Sum(entries) <= maxBytes
    ensures Wellformed(entries[..n]) && Sum(entries[..n]) <= maxBytes
  {
    SumPrefix(entries, n);
    assert forall e :: e in entries[..n] ==> e in entries;
  }

  lemma ValidStep(entries: seq<Entry>, n: nat)
    requires n < |entries|
    ensures (forall e :: e in entries[..n + 1] ==> ValidEntry(e))
            <==> (forall e :: e in entries[..n] ==> ValidEntry(e)) && ValidEntry(entries[n])
  {
    assert entries[..n + 1] == entries[..n] + [entries[n]];
    assert entries[n] in entries[..n + 1];
  }

  lemma DistinctStep(entries: seq<Entry>, n: nat, expected: map<string, Entry>)
    requires n < |entries| && Indexed(entries[..n], expected) && DistinctKeys(entries[..n])
    ensures DistinctKeys(entries[..n + 1]) <==> Key(entries[n]) !in expected
  {
    var before, after := entries[..n], entries[..n + 1];
    assert forall k :: 0 <= k < n ==> before[k] in before && after[k] == before[k];
    if Key(entries[n]) in expected {
      var k :| 0 <= k < n && before[k] == expected[Key(entries[n])];
      assert Key(after[k]) == Key(after[n]);
    }
  }

  lemma WellformedStep(entries: seq<Entry>, n: nat, expected: map<string, Entry>)
    requires n < |entries| && Indexed(entries[..n], expected) && Wellformed(entries[..n])
    ensures Wellformed(entries[..n + 1]) <==> Key(entries[n]) !in expected && ValidEntry(entries[n])
  {
    ValidStep(entries, n);
    DistinctStep(entries, n, expected);
  }

  lemma IndexStep(entries: seq<Entry>, n: nat, expected: map<string, Entry>)
    requires n < |entries| && Indexed(entries[..n], expected) && Key(entries[n]) !in expected
    ensures Indexed(entries[..n + 1], expected[Key(entries[n]) := entries[n]])
  {
    assert entries[..n + 1] == entries[..n] + [entries[n]];
  }

  /** The manifest loop.  `declared` is an int64: the verifier checks that neither the subtraction
      in the guard nor the addition can leave its range. */
  method IndexEntries(entries: seq<Entry>, maxBytes: int64) returns (ok: bool, expected: map<string, Entry>,
                      declared: int64)
    requires 0 <= maxBytes
    ensures ok <==> Wellformed(entries) && Sum(entries) <= maxBytes as int
    ensures ok ==> Indexed(entries, expected) && declared as int == Sum(entries)
  {
    expected, declared := map[], 0;
    for i := 0 to |entries|
      invariant 0 <= declared <= maxBytes && declared as int == Sum(entries[..i])
      invariant Wellformed(entries[..i]) && Indexed(entries[..i], expected)
    {
      var entry := entries[i];
      WellformedStep(entries, i, expected);
      SumStep(entries, i);
      if Key(entry) in expected || !ValidEntry(entry) || entry.size > maxBytes - declared {
        if Wellformed(entries) && Sum(entries) <= maxBytes as int {
          PrefixWellformed(entries, i + 1, maxBytes as int);
        }
        return false, expected, declared;
      }
      IndexStep(entries, i, expected);
      expected := expected[Key(entry) := entry];
      declared := declared + entry.size;
    }
    assert entries[..|entries|] == entries;
    return true, expected, declared;
  }

  method SourcesCovered(sources: seq<Source>, entries: seq<Entry>) returns (ok: bool)
    ensures ok <==> Covered(sources, entries)
  {
    var present := set e | e in entries :: e.source;
    for i := 0 to |sources|
      invariant forall k :: 0 <= k < i && sources[k].required ==> sources[k].id in present
    {
      if sources[i].required && sources[i].id !in present {
        assert sources[i] in sources;
        return false;
      }
    }
    return true;
  }

  method CheckManifest(config: Config, m: Manifest) returns (ok: bool, expected: map<string, Entry>)
    requires 0 <= config.maxBytes
    ensures ok <==> ValidManifest(config, m)
    ensures ok ==> Indexed(m.entries, expected)
  {
    if m.schema != SCHEMA || m.id == "" || m.created == 0 || |m.entries| > config.maxEntries {
      return false, map[];
    }
    var declared;
    ok, expected, declared := IndexEntries(m.entries, config.maxBytes);
    if !ok || declared != m.total {
      return false, expected;
    }
    ok := SourcesCovered(config.sources, m.entries);
  }

  ghost predicate Unread(key: string, data: seq<Tar>) {
    forall t :: t in data ==> t.name != DATA + key
  }

  /** After some data entries: each manifest entry is either still expected or taken. */
  ghost predicate EntriesOk(entries: seq<Entry>, data: seq<Tar>, expected: map<string, Entry>,
                            files: map<string, Bytes>, digest: Digest)
  {
    forall e :: e in entries ==> if Key(e) in expected then expected[Key(e)] == e else Taken(e, data, files, digest)
  }

  ghost predicate ExpectedOk(entries: seq<Entry>, data: seq<Tar>, expected: map<string, Entry>) {
    forall key :: key in expected ==> expected[key] in entries && Key(expected[key]) == key && Unread(key, data)
  }

  ghost predicate Progress(entries: seq<Entry>, data: seq<Tar>, expected: map<string, Entry>,
                           files: map<string, Bytes>, digest: Digest)
  {
    && EntriesOk(entries, data, expected, files, digest)
    && ExpectedOk(entries, data, expected)
    && AllAnnounced(entries, data, digest)
    && DistinctNames(data)
    && (forall key :: key in files ==> exists e :: e in entries && Key(e) == key)
  }

  /** The test extractVerified applies to the next data entry. */
  predicate Fits(t: Tar, expected: map<string, Entry>, digest: Digest) {
    t.regular && |t.name| >= |DATA| && t.name[..|DATA|] == DATA &&
    var key := t.name[|DATA|..];
    key in expected &&
    var entry := expected[key];
    t.size == entry.size && 0 <= entry.size as int <= |t.body| && digest(t.body[..entry.size]) == entry.sha256
  }

  lemma TakenStays(e: Entry, data: seq<Tar>, t: Tar, files: map<string, Bytes>, key: string, body: Bytes,
                   digest: Digest)
    requires Taken(e, data, files, digest) && Key(e) != key
    ensures Taken(e, data + [t], files[key := body], digest)
  {
    var earlier :| earlier in data && Matches(e, earlier, digest) && files[Key(e)] == earlier.body[..e.size];
    assert earlier in data + [t];
  }

  lemma TakingKeepsEntries(entries: seq<Entry>, data: seq<Tar>, t: Tar, key: string, expected: map<string, Entry>,
                           files: map<string, Bytes>, digest: Digest)
    requires EntriesOk(entries, data, expected, files, digest) && key in expected && Matches(expected[key], t, digest)
    requires Key(expected[key]) == key
    ensures EntriesOk(entries, data + [t], expected - {key}, files[key := t.body[..expected[key].size]], digest)
  {
    var body := t.body[..expected[key].size];
    forall e | e in entries && Key(e) !in expected - {key} ensures Taken(e, data + [t], files[key := body], digest) {
      if Key(e) == key {
        assert e == expected[key] && t in data + [t];
      } else {
        TakenStays(e, data, t, files, key, body, digest);
      }
    }
  }

  lemma TakingKeepsExpected(entries: seq<Entry>, data: seq<Tar>, t: Tar, key: string, expected: map<string, Entry>)
    requires ExpectedOk(entries, data, expected) && t.name == DATA + key
    ensures ExpectedOk(entries, data + [t], expected - {key})
  {
    forall other | other in expected - {key} ensures Unread(other, data + [t]) {
      assert t.name[|DATA|..] == key && (DATA + other)[|DATA|..] == other;
      assert Unread(other, data);
    }
  }

  lemma TakingKeepsNames(data: seq<Tar>, t: Tar, key: string)
    requires DistinctNames(data) && Unread(key, data) && t.name == DATA + key
    ensures DistinctNames(data + [t])
  {
    assert forall j :: 0 <= j < |data| ==> data[j] in data;
  }

  lemma ProgressStep(entries: seq<Entry>, data: seq<Tar>, n: nat, expected: map<string, Entry>,
                     files: map<string, Bytes>, digest: Digest)
    requires n < |data| && Progress(entries, data[..n], expected, files, digest) && Fits(data[n], expected, digest)
    ensures var key := data[n].name[|DATA|..];
            Progress(entries, data[..n + 1], expected - {key}, files[key := data[n].body[..expected[key].size]], digest)
  {
    var t, key, before := data[n], data[n].name[|DATA|..], data[..n];
    assert data[..n + 1] == before + [t] && t.name == DATA + key;
    assert Matches(expected[key], t, digest) && Unread(key, before);
    TakingKeepsEntries(entries, before, t, key, expected, files, digest);
    TakingKeepsExpected(entries, before, t, key, expected);
    TakingKeepsNames(before, t, key);
    assert Announced(entries, t, digest);
  }

  lemma NotTakenBefore(data: seq<Tar>, n: nat, e: Entry, files: map<string, Bytes>, digest: Digest)
    requires n < |data| && DistinctNames(data) && data[n].name == DATA + Key(e)
    ensures !Taken(e, data[..n], files, digest)
  {
    assert forall t :: t in data[..n] ==> t.name != data[n].name;
  }

  lemma AnnouncedFits(entries: seq<Entry>, data: seq<Tar>, n: nat, expected: map<string, Entry>,
                      files: map<string, Bytes>, digest: Digest)
    requires n < |data| && Progress(entries, data[..n], expected, files, digest)
    requires Announced(entries, data[n], digest) && DistinctNames(data)
    ensures Fits(data[n], expected, digest)
  {
    var e :| e in entries && Matches(e, data[n], digest);
    NotTakenBefore(data, n, e, files, digest);
    assert data[n].name[..|DATA|] == DATA && data[n].name[|DATA|..] == Key(e);
  }

  lemma ProgressEnds(entries: seq<Entry>, data: seq<Tar>, expected: map<string, Entry>, files: map<string, Bytes>,
                     digest: Digest)
    requires Progress(entries, data, expected, files, digest)
    ensures expected == map[] <==> Bijective(entries, data, digest)
    ensures expected == map[] ==> Holds(files, entries, data, digest)
  {
    if expected == map[] {
      forall e | e in entries ensures Present(e, data, digest) {
        assert Taken(e, data, files, digest);
      }
    } else {
      var key :| key in expected;
      assert Unread(key, data) && !Present(expected[key], data, digest);
    }
  }

  /** The data loop: the entries left over are none exactly when all correspond. */
  method ReadData(ghost entries: seq<Entry>, data: seq<Tar>, index: map<string, Entry>, digest: Digest,
                  stops: nat -> bool)
    returns (complete: bool, interrupted: bool, files: map<string, Bytes>)
    requires Indexed(entries, index) && DistinctKeys(entries)
    ensures interrupted ==> exists n :: 0 <= n < |data| && stops(n)
    ensures !interrupted ==> (complete <==> Bijective(entries, data, digest))
    ensures !interrupted && complete ==> Holds(files, entries, data, digest)
  {
    var expected := index;
    files, interrupted := map[], false;
    for n := 0 to |data|
      invariant Progress(entries, data[..n], expected, files, digest)
    {
      if stops(n) {
        return false, true, files;
      }
      var t := data[n];
      if !Fits(t, expected, digest) {
        if Bijective(entries, data, digest) {
          assert data[n] in data;
          AnnouncedFits(entries, data, n, expected, files, digest);
        }
        return false, false, files;
      }
      ProgressStep(entries, data, n, expected, files, digest);
      var key := t.name[|DATA|..];
      files := files[key := t.body[..expected[key].size]];
      expected := expected - {key};
    }
    assert data[..|data|] == data;
    ProgressEnds(entries, data, expected, files, digest);
    return expected == map[], false, files;
  }

  /** extractVerified: accepts exactly the archives whose data entries correspond one to one to a
      valid manifest, and then holds for each entry the bytes with its digest.  `stops` says at which data
      entry the context is cancelled or the staging directory fails. */
  method ExtractVerified(config: Config, archive: Archive, digest: Digest, stops: nat -> bool) returns (r: Extraction)
    ensures r == Failed(Interrupted) ==> exists n :: 0 <= n < |archive.data| && stops(n)
    ensures r.Extracted? ==> Accepts(config, archive, digest) && r.manifest == archive.manifest.value
                             && Holds(r.files, r.manifest.entries, archive.data, digest)
    ensures r == Failed(Rejected) ==> !Accepts(config, archive, digest)
  {
    var valid := Validate(config);
    if !valid || archive.manifestSize > MAX_MANIFEST || archive.manifest.None? {
      return Failed(Rejected);
    }
    var manifest := archive.manifest.value;
    var ok, expected := CheckManifest(config, manifest);
    if !ok {
      return Failed(Rejected);
    }
    var complete, interrupted, files := ReadData(manifest.entries, archive.data, expected, digest, stops);
    if interrupted {
      return Failed(Interrupted);
    }
    if !archive.intact || !complete {
      return Failed(Rejected);
    }
    return Extracted(manifest, files);
  }

  // ---------------------------------------------------------------- Create

  /** A collected file: where it was found, its entry as hashed, and the bytes found when the archive is
      written. */
  datatype Collected = Collected(origin: string, entry: Entry, content: Bytes)

  function Entries(files: seq<Collected>): (r: seq<Entry>)
    ensures |r| == |files| && forall i :: 0 <= i < |r| ==> r[i] == files[i].entry
  {
    seq(|files|, i requires 0 <= i < |files| => files[i].entry)
  }

  /** collectOne: the entry describes the file content. */
  predicate Describes(f: Collected, digest: Digest) {
    f.entry.size as int == |f.content| && f.entry.sha256 == digest(f.content)
  }

  function ManifestOf(files: seq<Collected>, id: string, created: nat, total: int64): Manifest {
    Manifest(SCHEMA, id, created, Entries(files), total)
  }

  function DataOf(files: seq<Collected>): (r: seq<Tar>)
    ensures |r| == |files|
  {
    seq(|files|, i requires 0 <= i < |files| =>
      Tar(DATA + Key(files[i].entry), true, files[i].entry.size, files[i].content))
  }

  /** writeArchive: the manifest, then one data entry per file in the same order. */
  function Written(files: seq<Collected>, m: Manifest, encoding: Encoding): Archive {
    Archive(Some(m), encoding(m), DataOf(files), true)
  }

  /** The file name of a path. */
  function Base(path: string): string {
    if Segments(path) == [] then path else Segments(path)[|Segments(path)| - 1]
  }

  /** The segments of a path below a directory. */
  predicate Below(dir: string, path: string) {
    IsAbs(path) && Clean(path) == path && Segments(dir) <= Segments(path) && |Segments(dir)| < |Segments(path)|
  }

  /** The path of a file relative to a directory. */
  function Rel(dir: string, path: string): string
    requires Below(dir, path)
  {
    Text.Join(Segments(path)[|Segments(dir)|..], SLASH)
  }

  /** collect finds no directory at the source's path: the file there, under its own name.  The root directory
      is no file. */
  predicate SingleFile(source: Source, f: Collected) {
    f.origin == source.path && Segments(f.origin) != [] && f.entry.path == Base(source.path)
  }

  /** collect finds a directory there: a file below it, under its relative path. */
  predicate FileBelow(source: Source, f: Collected) {
    Below(source.path, f.origin) && f.entry.path == Rel(source.path, f.origin)
  }

  /** A file of a source whose marks say what is on the disk. */
  predicate FromSource(source: Source, f: Collected) {
    f.entry.source == source.id
    && if source.database || source.file then SingleFile(source, f) else FileBelow(source, f)
  }

  /** What collecting gives: files of configured sources, described by their entries. */
  ghost predicate Gathered(sources: seq<Source>, f: Collected, digest: Digest) {
    && (exists source :: source in sources && FromSource(source, f))
    && Describes(f, digest) && |digest(f.content)| == DIGEST_LENGTH && f.entry.mode <= MAX_MODE
  }

  lemma RelIsSafe(dir: string, path: string)
    requires Below(dir, path) && '\\' !in Rel(dir, path)
    ensures SafeRelative(Rel(dir, path)) && Rel(dir, path) != "."
    ensures Text.Split(Rel(dir, path), SLASH) == Segments(path)[|Segments(dir)|..]
  {
    var names := Segments(path)[|Segments(dir)|..];
    SegmentsShaped(path);
    assert AllOrdinary(names) && forall line :: line in names ==> SLASH !in line;
    Text.SplitJoin(names, SLASH);
    SafeRelativeIff(Rel(dir, path));
    Text.SplitNone(".", SLASH);
    assert Ordinary(names[0]);
  }

  lemma BaseIsSafe(path: string)
    requires IsAbs(path) && Segments(path) != [] && '\\' !in Base(path)
    ensures SafeRelative(Base(path))
  {
    SegmentsShaped(path);
    Text.SplitNone(Base(path), SLASH);
    SafeRelativeIff(Base(path));
  }

  lemma GatheredIsValid(config: Config, f: Collected, digest: Digest)
    requires ValidConfig(config) && Gathered(config.sources, f, digest) && '\\' !in f.entry.path
    ensures ValidEntry(f.entry)
  {
    var source :| source in config.sources && FromSource(source, f);
    if source.database || source.file {
      BaseIsSafe(source.path);
    } else {
      RelIsSafe(source.path, f.origin);
    }
  }

  /** Two files of one source are one file if their entries have the same path. */
  lemma SamePathSameOrigin(source: Source, f: Collected, g: Collected)
    requires FromSource(source, f) && FromSource(source, g) && f.entry.path == g.entry.path && '\\' !in f.entry.path
    ensures f.origin == g.origin
  {
    if !source.database && !source.file {
      RelIsSafe(source.path, f.origin);
      RelIsSafe(source.path, g.origin);
      var n := |Segments(source.path)|;
      assert Segments(f.origin) == Segments(f.origin)[..n] + Segments(f.origin)[n..];
      assert Segments(g.origin) == Segments(g.origin)[..n] + Segments(g.origin)[n..];
      CleanDetermined(f.origin, g.origin);
    }
  }

  /** No file of a source is collected twice. */
  predicate CollectedOnce(files: seq<Collected>) {
    forall i, j :: 0 <= i < j < |files| ==>
      files[i].entry.source != files[j].entry.source || files[i].origin != files[j].origin
  }

  lemma SameSource(sources: seq<Source>, a: Source, b: Source)
    requires forall i, j :: 0 <= i < j < |sources| ==> sources[i].id != sources[j].id
    requires a in sources && b in sources && a.id == b.id
    ensures a == b
  {
    var i :| 0 <= i < |sources| && sources[i] == a;
    var j :| 0 <= j < |sources| && sources[j] == b;
  }

  lemma GatheredKeysDiffer(config: Config, f: Collected, g: Collected, digest: Digest)
    requires ValidConfig(config) && Gathered(config.sources, f, digest) && Gathered(config.sources, g, digest)
    requires '\\' !in f.entry.path && (f.entry.source != g.entry.source || f.origin != g.origin)
    ensures Key(f.entry) != Key(g.entry)
  {
    var a :| a in config.sources && FromSource(a, f);
    var b :| b in config.sources && FromSource(b, g);
    if Key(f.entry) == Key(g.entry) {
      KeyInjective(f.entry, g.entry);
      SameSource(config.sources, a, b);
      SamePathSameOrigin(a, f, g);
    }
  }

  /** The entries of collected files have valid distinct keys if and only if no path holds a backslash. */
  lemma GatheredIsWellformed(config: Config, files: seq<Collected>, digest: Digest)
    requires ValidConfig(config) && CollectedOnce(files)
    requires forall i :: 0 <= i < |files| ==> Gathered(config.sources, files[i], digest)
    ensures Wellformed(Entries(files)) <==> forall i :: 0 <= i < |files| ==> '\\' !in files[i].entry.path
  {
    var entries := Entries(files);
    if forall i :: 0 <= i < |files| ==> '\\' !in files[i].entry.path {
      forall e | e in entries ensures ValidEntry(e) {
        var i :| 0 <= i < |files| && entries[i] == e;
        GatheredIsValid(config, files[i], digest);
      }
      forall i, j | 0 <= i < j < |files| ensures Key(entries[i]) != Key(entries[j]) {
        GatheredKeysDiffer(config, files[i], files[j], digest);
      }
    } else {
      var i :| 0 <= i < |files| && '\\' in files[i].entry.path;
      assert entries[i] in entries && !SafeRelative(entries[i].path);
    }
  }

  /** What the backup of described files needs to be restored: valid distinct keys. */
  ghost predicate Collectable(files: seq<Collected>, digest: Digest) {
    Wellformed(Entries(files)) && forall f :: f in files ==> Describes(f, digest)
  }

  lemma DataCorresponds(files: seq<Collected>, digest: Digest)
    requires DistinctKeys(Entries(files)) && forall f :: f in files ==> Describes(f, digest)
    ensures Bijective(Entries(files), DataOf(files), digest)
  {
    var data, entries := DataOf(files), Entries(files);
    assert forall i :: 0 <= i < |files| ==> data[i].name == DATA + Key(entries[i]);
    forall i | 0 <= i < |files| ensures Matches(entries[i], data[i], digest) {
      assert files[i] in files && data[i].body[..entries[i].size] == files[i].content;
    }
    forall t | t in data ensures Announced(entries, t, digest) {
      var i :| 0 <= i < |files| && data[i] == t;
      assert entries[i] in entries;
    }
    forall e | e in entries ensures Present(e, data, digest) {
      var i :| 0 <= i < |files| && entries[i] == e;
      assert data[i] in data;
    }
    forall j, k | 0 <= j < k < |data| ensures data[j].name != data[k].name {
      assert data[j].name[|DATA|..] == Key(entries[j]) && data[k].name[|DATA|..] == Key(entries[k]);
    }
  }

  /** What Create writes for described files passes verification, under the same manifest, if and only if
      the keys are valid and distinct, the manifest's text, the number of entries and their sizes are within
      their limits and every required source has a file. */
  lemma WrittenIsAccepted(config: Config, files: seq<Collected>, id: string, created: nat, total: int64,
                          digest: Digest, encoding: Encoding)
    requires ValidConfig(config) && id != "" && created != 0
    requires (forall f :: f in files ==> Describes(f, digest)) && Sum(Entries(files)) == total as int
    ensures var m := ManifestOf(files, id, created, total);
            Accepts(config, Written(files, m, encoding), digest)
            <==> (Wellformed(Entries(files)) && encoding(m) <= MAX_MANIFEST && |files| <= config.maxEntries
                  && total <= config.maxBytes && Covered(config.sources, Entries(files)))
  {
    if Wellformed(Entries(files)) {
      DataCorresponds(files, digest);
    }
  }

  /** So a file with a backslash in its name makes every backup of it unacceptable. */
  lemma BackslashIsRejected(config: Config, files: seq<Collected>, id: string, created: nat, total: int64,
                            digest: Digest, encoding: Encoding, f: Collected)
    requires f in files && '\\' in f.entry.path
    ensures !Accepts(config, Written(files, ManifestOf(files, id, created, total), encoding), digest)
  {
    var i :| 0 <= i < |files| && files[i] == f;
    assert Entries(files)[i] in Entries(files) && !SafeRelative(f.entry.path);
  }

  /** A required source without a collectable file makes the archive unacceptable. */
  lemma EmptySourceIsRejected(config: Config, files: seq<Collected>, id: string, created: nat, total: int64,
                              digest: Digest, encoding: Encoding, source: Source)
    requires source in config.sources && source.required
    requires forall f :: f in files ==> f.entry.source != source.id
    ensures !Accepts(config, Written(files, ManifestOf(files, id, created, total), encoding), digest)
  {
    forall e | e in Entries(files) ensures e.source != source.id {
      var i :| 0 <= i < |files| && Entries(files)[i] == e;
      assert files[i] in files;
    }
  }

  /** An entry's text holds at least its digest. */
  ghost predicate HoldsDigests(encoding: Encoding, m: Manifest) {
    encoding(m) >= DIGEST_LENGTH * |m.entries|
  }

  /** So no backup of more than 2^18 files passes its own verification, although a million entries
      are allowed by default. */
  lemma ManyFilesAreRejected(config: Config, files: seq<Collected>, id: string, created: nat, total: int64,
                             digest: Digest, encoding: Encoding)
    requires HoldsDigests(encoding, ManifestOf(files, id, created, total)) && |files| > 0x4_0000
    ensures !Accepts(config, Written(files, ManifestOf(files, id, created, total), encoding), digest)
  {
    assert |Entries(files)| == |files|;
  }

  /** A data entry with the name of a distinct-keyed entry can only be that entry's. */
  lemma SameNameSameEntry(entries: seq<Entry>, i: nat, e: Entry, t: Tar, digest: Digest)
    requires i < |entries| && DistinctKeys(entries) && e in entries
    requires Matches(e, t, digest) && t.name == DATA + Key(entries[i])
    ensures e == entries[i]
  {
    assert t.name[|DATA|..] == Key(e) && t.name[|DATA|..] == Key(entries[i]);
    var k :| 0 <= k < |entries| && entries[k] == e;
  }

  /** A file whose content changed between hashing and writing is caught by verification, provided
      the digest tells the two contents apart. */
  lemma ChangedFileIsRejected(config: Config, files: seq<Collected>, id: string, created: nat, total: int64,
                              digest: Digest, encoding: Encoding, i: nat)
    requires i < |files| && DistinctKeys(Entries(files))
    requires |files[i].content| == files[i].entry.size as int && digest(files[i].content) != files[i].entry.sha256
    ensures !Accepts(config, Written(files, ManifestOf(files, id, created, total), encoding), digest)
  {
    var data, entries := DataOf(files), Entries(files);
    var t := data[i];
    assert t.body[..entries[i].size] == files[i].content;
    forall e | e in entries ensures !Matches(e, t, digest) {
      if Matches(e, t, digest) {
        SameNameSameEntry(entries, i, e, t, digest);
      }
    }
    assert t in data && !Announced(entries, t, digest);
  }

  /** Whatever extraction of a written archive holds is, file by file, what was collected. */
  lemma ExtractedIsCollected(files: seq<Collected>, held: map<string, Bytes>, digest: Digest, i: nat)
    requires i < |files| && DistinctKeys(Entries(files)) && files[i].entry.size as int == |files[i].content|
    requires Holds(held, Entries(files), DataOf(files), digest)
    ensures Key(files[i].entry) in held && held[Key(files[i].entry)] == files[i].content
  {
    var data, entries := DataOf(files), Entries(files);
    assert entries[i] in entries && Taken(entries[i], data, held, digest);
    var t :| t in data && Matches(entries[i], t, digest) && held[Key(entries[i])] == t.body[..entries[i].size];
    var k :| 0 <= k < |data| && data[k] == t;
    assert t.name == DATA + Key(entries[k]);
    SameNameSameEntry(entries, k, entries[i], t, digest);
    assert k == i;
  }
}
