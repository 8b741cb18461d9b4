/**
  Settings of a protection preset: validation and normalisation, and what re-enabling a preset makes
  of the jail file it was disabled with.
*/
module Presets {
  import opened Options
  import opened Text
  import Paths
  import opened JailLines
  import opened Jail

  // ---------------------------------------------------------------- numbers

  predicate Digit(c: char) {
    '0' <= c <= '9'
  }

  predicate Digits(s: string) {
    forall i :: 0 <= i < |s| ==> Digit(s[i])
  }

  function Number(s: string): nat
    requires Digits(s)
  {
    if s == [] then 0 else 10 * Number(s[..|s| - 1]) + (s[|s| - 1] - '0') as nat
  }

  /** strconv.Atoi without the 64-bit range. */
  function Atoi(s: string): Option<int> {
    var signed := s != [] && (s[0] == '-' || s[0] == '+');
    var digits := if signed then s[1..] else s;
    if digits == [] || !Digits(digits) then None
    else
      var n: int := Number(digits);
      Some(if s[0] == '-' then -n else n)
  }

  function Decimal(n: nat): (r: string)
    ensures r != [] && Digits(r)
  {
    var last := ['0' + (n % 10) as char];
    if n < 10 then last else Decimal(n / 10) + last
  }

  lemma {:induction false} NumberDecimal(n: nat)
    ensures Number(Decimal(n)) == n
  {
    if n >= 10 {
      NumberDecimal(n / 10);
      assert Decimal(n)[..|Decimal(n)| - 1] == Decimal(n / 10);
    }
  }

  lemma AtoiDecimal(n: nat)
    ensures Atoi(Decimal(n)) == Some(n) && Trimmed(Decimal(n)) && NEWLINE !in Decimal(n)
  {
    NumberDecimal(n);
    assert Digit(Decimal(n)[0]);
  }

  // ---------------------------------------------------------------- words

  function Word(s: string): (r: string)
    ensures r <= s && forall i :: 0 <= i < |r| ==> !IsSpace(r[i])
  {
    if s == [] || IsSpace(s[0]) then [] else [s[0]] + Word(s[1..])
  }

  lemma TrimLeftShorter(s: string)
    ensures |TrimLeft(s)| <= |s| && (TrimLeft(s) != [] ==> |Word(TrimLeft(s))| > 0)
  {
    TrimLeftTrimmed(s);
  }

  /** strings.Fields */
  function Fields(s: string): (r: seq<string>)
    ensures AllWords(r)
    decreases |s|
  {
    TrimLeftShorter(s);
    var t := TrimLeft(s);
    if t == [] then [] else [Word(t)] + Fields(t[|Word(t)|..])
  }

  predicate Spaceless(w: string) {
    forall i :: 0 <= i < |w| ==> !IsSpace(w[i])
  }

  predicate AllWords(words: seq<string>) {
    forall i :: 0 <= i < |words| ==> words[i] != [] && Spaceless(words[i])
  }

  lemma {:induction false} WordThen(w: string, rest: string)
    requires Spaceless(w) && (rest == [] || IsSpace(rest[0]))
    ensures Word(w + rest) == w
  {
    if w == [] {
      assert w + rest == rest;
    } else {
      assert (w + rest)[1..] == w[1..] + rest;
      WordThen(w[1..], rest);
    }
  }

  lemma {:induction false} FieldsJoin(words: seq<string>)
    requires AllWords(words)
    ensures Fields(Join(words, ' ')) == words
  {
    if words != [] {
      var w, more := words[0], words[1..];
      var rest := if more == [] then "" else " " + Join(more, ' ');
      var all := Join(words, ' ');
      assert all == w + rest && all[0] == w[0];
      WordThen(w, rest);
      assert all[|w|..] == rest;
      FieldsJoin(more);
      FieldsSkip(more);
      assert words == [w] + more;
    }
  }

  lemma FieldsSkip(words: seq<string>)
    ensures words != [] ==> Fields(" " + Join(words, ' ')) == Fields(Join(words, ' '))
  {
    assert (" " + Join(words, ' '))[1..] == Join(words, ' ');
  }

  lemma {:induction false} JoinWords(words: seq<string>)
    requires AllWords(words)
    ensures Trimmed(Join(words, ' ')) && NEWLINE !in Join(words, ' ') && (words != [] ==> Join(words, ' ') != [])
  {
    if |words| > 1 {
      JoinWords(words[1..]);
    }
  }

  // ---------------------------------------------------------------- validation

  datatype Kind = BanTime | FindTime | MaxRetry | Backend | LogPath | IgnoreIp | BanAction | Port

  function KindOf(key: string): Kind
    requires key in MANAGED
  {
    if key == "bantime" then BanTime
    else if key == "findtime" then FindTime
    else if key == "maxretry" then MaxRetry
    else if key == "backend" then Backend
    else if key == "logpath" then LogPath
    else if key == "ignoreip" then IgnoreIp
    else if key == "banaction" then BanAction
    else Port
  }

  predicate Letter(c: char) {
    'a' <= c <= 'z' || 'A' <= c <= 'Z'
  }

  predicate Positive(s: string) {
    s != [] && Digits(s) && s[0] != '0'
  }

  predicate Duration(s: string) {
    s == "-1" || Positive(s) || (s != [] && s[|s| - 1] in "smhdwy" && Positive(s[..|s| - 1]))
  }

  predicate ActionText(s: string) {
    s != [] && forall i :: 0 <= i < |s| ==> Letter(s[i]) || Digit(s[i]) || s[i] in "_()%.,:+-"
  }

  predicate LogFile(s: string) {
    "/var/log/" <= s && '\r' !in s && NEWLINE !in s && forall i :: 0 <= i < |s| ==> !TwoDots(s, i)
  }

  predicate TwoDots(s: string, i: nat) {
    i + 1 < |s| && s[i] == s[i + 1] == '.'
  }

  predicate PortText(s: string) {
    forall i :: 0 <= i < |s| ==> Letter(s[i]) || Digit(s[i]) || s[i] in "_-,"
  }

  predicate PortPart(s: string) {
    s != [] && ',' !in s && PortText(s)
    && (Letter(s[0]) || (Positive(s) && |s| <= 5 && Number(s) <= 65535))
  }

  /** Settings that are kept as they are typed, blanks around them aside. */
  predicate Acceptable(kind: Kind, s: string) {
    match kind
    case BanTime => Duration(s)
    case FindTime => Duration(s) && s != "-1"
    case Backend => s == "auto" || s == "systemd" || s == "polling"
    case LogPath => s == "" || LogFile(s)
    case BanAction => s == "" || ActionText(s)
    case Port => s == "" || (PortText(s) && forall part :: part in Split(s, ',') ==> PortPart(part))
    case _ => false
  }

  /** `address` says which texts are addresses or networks. */
  function Normal(address: string -> bool, kind: Kind, value: string): Option<string> {
    var s := TrimSpace(value);
    match kind
    case MaxRetry =>
      var n := Atoi(s);
      if n.Some? && 1 <= n.value <= 1000 then Some(Decimal(n.value)) else None
    case IgnoreIp =>
      if forall w :: w in Fields(s) ==> address(w) then Some(Join(Fields(s), ' ')) else None
    case _ => if Acceptable(kind, s) then Some(s) else None
  }

  lemma DurationNoNewline(s: string)
    requires Duration(s)
    ensures NEWLINE !in s && s != ""
  {
    if s != "-1" && !Positive(s) {
      assert s == s[..|s| - 1] + [s[|s| - 1]];
    }
  }

  lemma AcceptableNoNewline(kind: Kind, s: string)
    requires Acceptable(kind, s)
    ensures NEWLINE !in s && (kind.BanTime? || kind.FindTime? || kind.Backend? ==> s != "")
  {
    if kind.BanTime? || kind.FindTime? {
      DurationNoNewline(s);
    }
  }

  lemma TrimTrimmed(s: string)
    requires Trimmed(s)
    ensures TrimSpace(s) == s
  {
    TrimSpaceSkips("", s);
    assert "" + s == s;
  }

  /** A normalised value is on one line, trimmed, and normal already. */
  lemma NormalIsStable(address: string -> bool, kind: Kind, value: string)
    requires Normal(address, kind, value).Some?
    ensures var w := Normal(address, kind, value).value;
            && Trimmed(w) && NEWLINE !in w
            && Normal(address, kind, w) == Some(w)
            && (kind.BanTime? || kind.FindTime? || kind.MaxRetry? || kind.Backend? ==> w != "")
  {
    var w := Normal(address, kind, value).value;
    TrimSpaceTrimmed(value);
    if kind.MaxRetry? {
      AtoiDecimal(Atoi(TrimSpace(value)).value);
    } else if kind.IgnoreIp? {
      FieldsJoin(Fields(TrimSpace(value)));
      JoinWords(Fields(TrimSpace(value)));
    } else {
      AcceptableNoNewline(kind, TrimSpace(value));
    }
    TrimTrimmed(w);
  }

  // ---------------------------------------------------------------- a preset's settings

  function Lookup(values: Settings, key: string): string {
    if key in values then values[key] else ""
  }

  function Sprint(n: int): string {
    if n < 0 then "-" + Decimal(-n) else Decimal(n)
  }

  /** What a setting is when the caller does not give it: a number that cannot be read counts as 0. */
  function Default(current: Settings, key: string): string {
    if key != "maxretry" then Lookup(current, key)
    else
      var n := Atoi(Lookup(current, key));
      Sprint(if n.Some? then n.value else 0)
  }

  function Chosen(current: Settings, input: Settings, key: string): string {
    if key in input then input[key] else Default(current, key)
  }

  predicate AllNormal(address: string -> bool, current: Settings, input: Settings) {
    forall k :: k in MANAGED ==> Normal(address, KindOf(k), Chosen(current, input, k)).Some?
  }

  /** normalizedPresetSettings: the current jail's settings with the caller's laid over them. */
  function Normalized(address: string -> bool, current: Settings, input: Settings): (r: Option<Settings>)
    ensures r.Some? ==> r.value.Keys == MANAGED
  {
    if AllNormal(address, current, input) then
      Some(map k | k in MANAGED :: Normal(address, KindOf(k), Chosen(current, input, k)).value)
    else None
  }

  ghost predicate Stable(address: string -> bool, s: Settings) {
    && s.Keys == MANAGED
    && forall k :: k in MANAGED ==> Normal(address, KindOf(k), s[k]) == Some(s[k])
  }

  lemma NormalizedIsStable(address: string -> bool, current: Settings, input: Settings)
    requires Normalized(address, current, input).Some?
    ensures Stable(address, Normalized(address, current, input).value)
  {
    forall k | k in MANAGED
      ensures var w := Normalized(address, current, input).value[k]; Normal(address, KindOf(k), w) == Some(w) {
      NormalIsStable(address, KindOf(k), Chosen(current, input, k));
    }
  }

  lemma StableIsGood(address: string -> bool, s: Settings)
    requires Stable(address, s)
    ensures Good(s)
  {
    forall k | k in s ensures Trimmed(s[k]) && NEWLINE !in s[k] {
      NormalIsStable(address, KindOf(k), s[k]);
    }
  }

  /** The default for a stable setting is the setting. */
  lemma DefaultOfStable(address: string -> bool, s: Settings, current: Settings, k: string)
    requires Stable(address, s) && k in MANAGED && Lookup(current, k) == s[k]
    ensures Default(current, k) == s[k]
  {
    if k == "maxretry" {
      assert KindOf(k) == MaxRetry;
      RetryIsDecimal(address, s[k]);
    }
  }

  lemma RetryIsDecimal(address: string -> bool, v: string)
    requires Normal(address, MaxRetry, v) == Some(v)
    ensures Atoi(v).Some? && Sprint(Atoi(v).value) == v
  {
    AtoiDecimal(Atoi(TrimSpace(v)).value);
  }

  /** Reading a rendered jail gives back the settings it was rendered from. */
  lemma RenderedLookup(address: string -> bool, base: string, s: Settings, k: string)
    requires Stable(address, s) && Good(s) && k in MANAGED && MANDATORY <= Parsed(base).Keys
    ensures Lookup(Parsed(RenderedJail(base, s)), k) == s[k]
  {
    RenderReadsBack(base, s);
    assert Parsed(RenderedJail(base, s)) == Wanted(Parsed(base), s);
  }

  /** The settings of a jail rendered from normal settings are those settings. */
  lemma NormalizedRendered(address: string -> bool, base: string, s: Settings)
    requires Stable(address, s) && MANDATORY <= Parsed(base).Keys
    ensures Normalized(address, Parsed(RenderedJail(base, s)), map[]) == Some(s)
  {
    StableIsGood(address, s);
    forall k | k in MANAGED ensures Lookup(Parsed(RenderedJail(base, s)), k) == s[k] {
      RenderedLookup(address, base, s, k);
    }
    NormalizedOfStable(address, s, Parsed(RenderedJail(base, s)));
  }

  lemma NormalizedIs(address: string -> bool, s: Settings, current: Settings, input: Settings)
    requires s.Keys == MANAGED
    requires forall k :: k in MANAGED ==> Normal(address, KindOf(k), Chosen(current, input, k)) == Some(s[k])
    ensures Normalized(address, current, input) == Some(s)
  {
    assert AllNormal(address, current, input);
    assert Normalized(address, current, input).value == s;
  }

  lemma NormalizedOfStable(address: string -> bool, s: Settings, current: Settings)
    requires Stable(address, s) && forall k :: k in MANAGED ==> Lookup(current, k) == s[k]
    ensures Normalized(address, current, map[]) == Some(s)
  {
    forall k | k in MANAGED ensures Normal(address, KindOf(k), Chosen(current, map[], k)) == Some(s[k]) {
      DefaultOfStable(address, s, current, k);
    }
    NormalizedIs(address, s, current, map[]);
  }

  /** What enabling writes for a jail that was disabled with the given text. */
  function Reenabled(address: string -> bool, base: string, kept: string): Option<string> {
    var s := Normalized(address, Parsed(kept), map[]);
    if s.None? then None else Some(RenderedJail(base, s.value))
  }

  /** Some settings that validation let through render to the text. */
  ghost predicate FromSettings(address: string -> bool, base: string, text: string) {
    exists s: Settings :: Stable(address, s) && RenderedJail(base, s) == text
  }

  /** Disabling and enabling again gives back exactly the jails that were rendered from the preset. */
  lemma ReenabledIsKept(address: string -> bool, base: string, kept: string)
    requires MANDATORY <= Parsed(base).Keys
    ensures Reenabled(address, base, kept) == Some(kept) <==> FromSettings(address, base, kept)
  {
    if FromSettings(address, base, kept) {
      var s: Settings :| Stable(address, s) && RenderedJail(base, s) == kept;
      NormalizedRendered(address, base, s);
    }
    var s := Normalized(address, Parsed(kept), map[]);
    if s.Some? {
      NormalizedIsStable(address, Parsed(kept), map[]);
    }
  }

  predicate SameSettings(address: string -> bool, a: string, b: string) {
    Normalized(address, Parsed(a), map[]) == Normalized(address, Parsed(b), map[])
  }

  /** Enabling from one text writes another exactly when that one is a rendering with validated settings
      and the two texts have the same settings. */
  lemma ReenabledIff(address: string -> bool, base: string, kept: string, text: string)
    requires MANDATORY <= Parsed(base).Keys
    ensures Reenabled(address, base, kept) == Some(text)
            <==> FromSettings(address, base, text) && SameSettings(address, kept, text)
  {
    ReenabledIsKept(address, base, text);
    var s := Normalized(address, Parsed(kept), map[]);
    if s.Some? && RenderedJail(base, s.value) == text {
      NormalizedIsStable(address, Parsed(kept), map[]);
      NormalizedRendered(address, base, s.value);
    }
  }

  // ---------------------------------------------------------------- what a caller's settings come to

  /** A setting as it was given, or else as the text has it. */
  function Given(current: Settings, input: Settings, key: string): string {
    if key in input then input[key] else Lookup(current, key)
  }

  predicate TrimmedValues(values: Settings) {
    forall k :: k in values ==> Trimmed(values[k])
  }

  lemma {:induction false} LinesTrimmed(lines: seq<string>)
    ensures TrimmedValues(Values(LEXER, lines))
  {
    if lines != [] {
      LinesTrimmed(lines[..|lines| - 1]);
      var line := lines[|lines| - 1];
      if EntryOf(line).Some? {
        TrimSpaceTrimmed(ValuePart(TrimSpace(line)));
      }
    }
  }

  /** Reading a number and writing it again does not change what it is validated to. */
  lemma RetryDefault(address: string -> bool, v: string)
    requires Trimmed(v)
    ensures var n := Atoi(v);
            Normal(address, MaxRetry, Sprint(if n.Some? then n.value else 0)) == Normal(address, MaxRetry, v)
  {
    TrimTrimmed(v);
    var n := if Atoi(v).Some? then Atoi(v).value else 0;
    SprintAtoi(n);
  }

  lemma SprintAtoi(n: int)
    ensures Trimmed(Sprint(n)) && TrimSpace(Sprint(n)) == Sprint(n)
    ensures n >= 0 ==> Atoi(Sprint(n)) == Some(n)
    ensures n < 0 ==> Atoi(Sprint(n)) == Some(n)
  {
    if n >= 0 {
      AtoiDecimal(n);
    } else {
      NumberDecimal(-n);
      assert Sprint(n)[1..] == Decimal(-n);
      assert Digit(Decimal(-n)[|Decimal(-n)| - 1]);
    }
    TrimTrimmed(Sprint(n));
  }

  lemma ChosenNormal(address: string -> bool, current: Settings, input: Settings, k: string)
    requires TrimmedValues(current) && k in MANAGED
    ensures Normal(address, KindOf(k), Chosen(current, input, k))
            == Normal(address, KindOf(k), Given(current, input, k))
  {
    if k == "maxretry" && k !in input {
      assert KindOf(k) == MaxRetry && Trimmed(Lookup(current, k));
      RetryDefault(address, Lookup(current, k));
    }
  }

  predicate GivenValid(address: string -> bool, current: Settings, input: Settings) {
    forall k :: k in MANAGED ==> Normal(address, KindOf(k), Given(current, input, k)).Some?
  }

  lemma GivenIsChosen(address: string -> bool, current: Settings, input: Settings)
    requires TrimmedValues(current)
    ensures GivenValid(address, current, input) <==> AllNormal(address, current, input)
  {
    forall k | k in MANAGED
      ensures Normal(address, KindOf(k), Chosen(current, input, k))
              == Normal(address, KindOf(k), Given(current, input, k)) {
      ChosenNormal(address, current, input, k);
    }
  }

  lemma NormalizedAt(address: string -> bool, current: Settings, input: Settings, k: string)
    requires TrimmedValues(current) && k in MANAGED && Normalized(address, current, input).Some?
    ensures Normal(address, KindOf(k), Given(current, input, k)) == Some(Normalized(address, current, input).value[k])
  {
    ChosenNormal(address, current, input, k);
  }

  /** Settings are refused if and only if one of them is not valid; otherwise each is the validated form of
      what was given, or else of what the text has. */
  lemma NormalizedGiven(address: string -> bool, text: string, input: Settings)
    ensures Normalized(address, Parsed(text), input).Some? <==> GivenValid(address, Parsed(text), input)
    ensures forall k :: k in MANAGED && Normalized(address, Parsed(text), input).Some? ==>
              Normal(address, KindOf(k), Given(Parsed(text), input, k))
              == Some(Normalized(address, Parsed(text), input).value[k])
  {
    LinesTrimmed(Split(text, NEWLINE));
    GivenIsChosen(address, Parsed(text), input);
    forall k | k in MANAGED && Normalized(address, Parsed(text), input).Some?
      ensures Normal(address, KindOf(k), Given(Parsed(text), input, k))
              == Some(Normalized(address, Parsed(text), input).value[k]) {
      NormalizedAt(address, Parsed(text), input, k);
    }
  }

  // ---------------------------------------------------------------- which values are valid

  lemma {:induction false} DecimalNumber(s: string)
    requires Positive(s)
    ensures Decimal(Number(s)) == s && Number(s) > 0
  {
    var init, last := s[..|s| - 1], s[|s| - 1];
    var d := (last - '0') as nat;
    if |s| == 1 {
      assert init == [] && Number(init) == 0;
    } else {
      assert init[0] == s[0];
      DecimalNumber(init);
      assert Number(s) == 10 * Number(init) + d && Number(s) / 10 == Number(init) && Number(s) % 10 == d;
      assert s == init + [last];
    }
  }

  lemma {:induction false} DecimalPositive(n: nat)
    requires n > 0
    ensures Positive(Decimal(n))
  {
    if n >= 10 {
      DecimalPositive(n / 10);
    }
  }

  /** A positive number is the decimal form of one. */
  lemma PositiveIff(s: string)
    ensures Positive(s) <==> exists n: nat :: n > 0 && s == Decimal(n)
  {
    if Positive(s) {
      DecimalNumber(s);
    }
    if n: nat :| n > 0 && s == Decimal(n) {
      DecimalPositive(n);
    }
  }

  const UNITS := ["", "s", "m", "h", "d", "w", "y"]

  predicate TimeOf(s: string, n: nat, unit: string) {
    n > 0 && unit in UNITS && s == Decimal(n) + unit
  }

  /** A duration is a positive number with or without one of six units, or -1 for ever. */
  lemma DurationIff(s: string)
    ensures Duration(s) <==> s == "-1" || exists n: nat, unit: string :: TimeOf(s, n, unit)
  {
    if Duration(s) && s != "-1" {
      if Positive(s) {
        DecimalNumber(s);
        assert s == s + "";
        assert TimeOf(s, Number(s), "");
      } else {
        var init, unit := s[..|s| - 1], [s[|s| - 1]];
        DecimalNumber(init);
        assert s == init + unit;
        assert TimeOf(s, Number(init), unit);
      }
    }
    if n: nat, unit: string :| TimeOf(s, n, unit) {
      DecimalPositive(n);
      if unit == "" {
        assert Decimal(n) + "" == Decimal(n);
      } else {
        assert s[..|s| - 1] == Decimal(n) && s[|s| - 1] == unit[0];
      }
    }
  }

  /** The retry count is between 1 and 1000. */
  lemma RetryIff(address: string -> bool, n: int)
    ensures Normal(address, MaxRetry, Sprint(n)) == if 1 <= n <= 1000 then Some(Sprint(n)) else None
  {
    SprintAtoi(n);
  }

  lemma DecimalLength(n: nat)
    requires n < 100000
    ensures |Decimal(n)| <= 5
  {
    assert n / 10 / 10 / 10 / 10 < 10;
    assert |Decimal(n / 10 / 10 / 10 / 10)| == 1;
    assert |Decimal(n / 10 / 10 / 10)| <= 2;
    assert |Decimal(n / 10 / 10)| <= 3;
    assert |Decimal(n / 10)| <= 4;
  }

  lemma PortPartIff(n: nat)
    requires n > 0
    ensures PortText(Decimal(n)) && ',' !in Decimal(n) && (PortPart(Decimal(n)) <==> n <= 65535)
  {
    NumberDecimal(n);
    DecimalPositive(n);
    assert Digit(Decimal(n)[0]);
    if n <= 65535 {
      DecimalLength(n);
    }
  }

  lemma SinglePort(address: string -> bool, s: string)
    requires Trimmed(s) && s != "" && ',' !in s && PortText(s)
    ensures Normal(address, Port, s).Some? <==> PortPart(s)
  {
    TrimTrimmed(s);
    SplitNone(s, ',');
    assert forall part :: part in Split(s, ',') <==> part == s;
  }

  /** A single port number is between 1 and 65535. */
  lemma PortIff(address: string -> bool, n: nat)
    requires n > 0
    ensures Normal(address, Port, Decimal(n)).Some? <==> n <= 65535
  {
    AtoiDecimal(n);
    PortPartIff(n);
    SinglePort(address, Decimal(n));
  }

  lemma NoDotsNoClimb(s: string, rest: string, at: nat)
    requires at <= |s| && rest == s[at..] && forall i :: 0 <= i < |s| ==> !TwoDots(s, i)
    ensures forall i :: 0 <= i < |Split(rest, '/')| ==> Split(rest, '/')[i] != ".."
  {
    var more := Split(rest, '/');
    forall i | 0 <= i < |more| ensures more[i] != ".." {
      if more[i] == ".." {
        assert more[i] in more;
        var k := PieceOccurs(rest, '/', "..");
        assert rest[k..k + 2][0] == rest[k] && rest[k..k + 2][1] == rest[k + 1];
        assert TwoDots(s, at + k);
      }
    }
  }

  /** A log file stays below /var/log, whatever is lexically in its path. */
  lemma LogFileStays(s: string)
    requires LogFile(s)
    ensures ["var", "log"] <= Paths.Segments(s)
  {
    var rest := s[9..];
    assert s == "/var/log" + ['/'] + rest;
    SplitBetween("/var/log", rest, '/');
    RootSegments();
    NoDotsNoClimb(s, rest, 9);
    Paths.StackGrows(["", "var", "log"], Split(rest, '/'), true);
  }

  lemma RootSegments()
    ensures Split("/var/log", '/') == ["", "var", "log"] && Paths.Stack(["", "var", "log"], true) == ["var", "log"]
  {
    assert "/var/log" == "" + ['/'] + ("var" + ['/'] + "log");
    TwoNames("var", "log");
  }

  lemma TwoNames(a: string, b: string)
    requires Paths.Ordinary(a) && Paths.Ordinary(b)
    ensures Split("" + ['/'] + (a + ['/'] + b), '/') == ["", a, b] && Paths.Stack(["", a, b], true) == [a, b]
  {
    SplitFirst("", a + ['/'] + b, '/');
    SplitFirst(a, b, '/');
    SplitNone(b, '/');
    Paths.EmptySegments();
    Paths.StackOrdinary([""], [a, b], true);
    assert [""] + [a, b] == ["", a, b];
  }
}
