/** The jail file of a protection preset: parsing, and rendering with new values for the managed keys. */
module Jail {
  import opened Options
  import opened Text
  import opened JailLines

  const NEWLINE := '\n'

  /** Keys that a rendering adds at the end when the base does not have them. */
  const ADDED: seq<string> := ["banaction", "ignoreip", "logpath", "port"]
  /** Keys that a rendering only rewrites. */
  const MANDATORY: set<string> := {"bantime", "findtime", "maxretry", "backend"}
  const MANAGED: set<string> := MANDATORY + {"banaction", "ignoreip", "logpath", "port"}

  // ---------------------------------------------------------------- one line

  /** Lower case of the ASCII letters. */
  function LowerChar(c: char): char {
    if 'A' <= c <= 'Z' then 'a' + (c - 'A') else c
  }

  function Lower(s: string): (r: string)
    ensures |r| == |s| && forall i :: 0 <= i < |s| ==> r[i] == LowerChar(s[i])
  {
    if s == [] then [] else [LowerChar(s[0])] + Lower(s[1..])
  }

  predicate Comment(line: string) {
    line == [] || line[0] == '#' || line[0] == ';'
  }

  predicate Bracketed(line: string) {
    line != [] && line[0] == '[' && line[|line| - 1] == ']'
  }

  function Header(raw: string): Option<string> {
    var line := TrimSpace(raw);
    if !Comment(line) && Bracketed(line) then Some(line[1..|line| - 1]) else None
  }

  function KeyPart(line: string): string {
    UpTo(line, '=')
  }

  function ValuePart(line: string): string
    requires '=' in line
  {
    line[|UpTo(line, '=')| + 1..]
  }

  function EntryOf(raw: string): Option<Entry> {
    var line := TrimSpace(raw);
    if Comment(line) || Bracketed(line) || '=' !in line then None
    else Some((TrimSpace(Lower(KeyPart(line))), TrimSpace(ValuePart(line))))
  }

  function KeyOf(raw: string): Option<string> {
    var line := TrimSpace(raw);
    if '=' !in line then None else Some(Lower(TrimSpace(KeyPart(line))))
  }

  predicate Blank(raw: string) {
    TrimSpace(raw) == ""
  }

  function Write(key: string, value: string): string {
    key + " = " + value
  }

  const LEXER: Lexer<string> := Lexer(Header, EntryOf, KeyOf, Blank, Write, "")

  // ---------------------------------------------------------------- parser and renderer agree

  lemma {:induction false} LowerTrimLeft(s: string)
    ensures TrimLeft(Lower(s)) == Lower(TrimLeft(s))
  {
    if s != [] && IsSpace(s[0]) {
      assert Lower(s)[1..] == Lower(s[1..]);
      LowerTrimLeft(s[1..]);
    }
  }

  lemma {:induction false} LowerTrimRight(s: string)
    ensures TrimRight(Lower(s)) == Lower(TrimRight(s))
  {
    if s != [] && IsSpace(s[|s| - 1]) {
      assert Lower(s)[..|s| - 1] == Lower(s[..|s| - 1]);
      LowerTrimRight(s[..|s| - 1]);
    }
  }

  /** The parser lowers and then trims a key, the renderer trims and then lowers it. */
  lemma LowerTrim(s: string)
    ensures TrimSpace(Lower(s)) == Lower(TrimSpace(s))
  {
    LowerTrimLeft(s);
    LowerTrimRight(TrimLeft(s));
  }

  /** A trimmed line whose key starts with a letter is neither a comment nor a header. */
  lemma LetterLine(line: string)
    requires Trimmed(line) && line != [] && TrimSpace(KeyPart(line)) != []
    ensures TrimSpace(KeyPart(line))[0] == line[0]
  {
    TrimRightTrimmed(TrimLeft(KeyPart(line)));
  }

  predicate StartsWithLetter(key: string) {
    key != [] && 'a' <= key[0] <= 'z'
  }

  lemma SameKey(raw: string)
    ensures EntryOf(raw).Some? ==> KeyOf(raw) == Some(EntryOf(raw).value.0) && Header(raw).None?
  {
    LowerTrim(KeyPart(TrimSpace(raw)));
  }

  lemma LetterIsEntry(raw: string)
    ensures KeyOf(raw).Some? && StartsWithLetter(KeyOf(raw).value) ==> EntryOf(raw).Some?
  {
    var line := TrimSpace(raw);
    TrimSpaceTrimmed(raw);
    if '=' in line && StartsWithLetter(Lower(TrimSpace(KeyPart(line)))) {
      LetterLine(line);
    }
  }

  /** Parser and renderer see the same key in every line that the parser reads, and the parser reads every
      line whose key starts with a letter. */
  lemma AgreeOnLine(raw: string)
    ensures EntryOf(raw).Some? ==> KeyOf(raw) == Some(EntryOf(raw).value.0) && Header(raw).None?
    ensures KeyOf(raw).Some? && StartsWithLetter(KeyOf(raw).value) ==> EntryOf(raw).Some?
  {
    SameKey(raw);
    LetterIsEntry(raw);
  }

  lemma ManagedStartWithLetter(k: string)
    requires k in MANAGED
    ensures StartsWithLetter(k)
  {
  }

  lemma LexerLawful(raw: string)
    ensures LawfulLine(LEXER, MANAGED, raw)
  {
    AgreeOnLine(raw);
    if KeyOf(raw).Some? && KeyOf(raw).value in MANAGED {
      ManagedStartWithLetter(KeyOf(raw).value);
    }
  }

  lemma AsIs(s: string)
    requires Trimmed(s)
    ensures TrimSpace(s) == s
  {
    TrimSpaceSkips("", s);
    assert "" + s == s;
  }

  /** Comments and blank lines mean nothing. */
  lemma CommentsMeanNothing(raw: string)
    requires Trimmed(raw) && (raw == "" || raw[0] == '#' || raw[0] == ';')
    ensures EntryOf(raw).None? && Header(raw).None?
  {
    AsIs(raw);
  }

  /** A name in brackets is the jail's. */
  lemma HeaderIsName(name: string)
    ensures Header("[" + name + "]") == Some(name) && EntryOf("[" + name + "]").None?
  {
    var line := "[" + name + "]";
    assert line[0] == '[' && line[|line| - 1] == ']' && line[1..|line| - 1] == name;
    AsIs(line);
  }

  /** Letters are compared without regard to case. */
  lemma CapitalsAreLowered(c: char)
    ensures 'A' <= c <= 'Z' ==> 'a' <= LowerChar(c) <= 'z' && LowerChar(c) as int == c as int + 32
    ensures LowerChar(LowerChar(c)) == LowerChar(c)
  {
  }

  /** A key as it is written: lower case, no blanks, starting with a letter. */
  predicate PlainKey(key: string) {
    StartsWithLetter(key) && '=' !in key && forall i :: 0 <= i < |key| ==> !IsSpace(key[i]) && !('A' <= key[i] <= 'Z')
  }

  lemma ManagedPlain(k: string)
    requires k in MANAGED
    ensures PlainKey(k) && NEWLINE !in k
  {
  }

  lemma WrittenKey(key: string)
    requires PlainKey(key)
    ensures TrimSpace(key + " ") == key && Lower(key) == key && Lower(key + " ") == key + " "
  {
    assert (key + " ")[..|key|] == key;
    assert TrimLeft(key + " ") == key + " ";
    assert TrimRight(key) == key;
  }

  lemma WrittenParts(key: string, value: string)
    requires PlainKey(key)
    ensures var line := Write(key, value);
            '=' in line && KeyPart(line) == key + " " && ValuePart(line) == " " + value
  {
    var line := Write(key, value);
    assert line == (key + " ") + ['='] + (" " + value);
    UpToFirst(key + " ", " " + value, '=');
    assert line[|key| + 1] == '=';
    assert line[|key| + 2..] == " " + value;
  }

  lemma WrittenTrimmed(key: string, value: string)
    requires PlainKey(key) && value != "" && Trimmed(value)
    ensures TrimSpace(Write(key, value)) == Write(key, value)
  {
    var line := Write(key, value);
    assert line[0] == key[0] && line[|line| - 1] == value[|value| - 1];
    TrimSpaceSkips("", line);
    assert "" + line == line;
  }

  lemma WriteLawful(key: string, value: string)
    requires PlainKey(key) && value != "" && Trimmed(value)
    ensures LawfulWrite(LEXER, key, value)
  {
    var line := Write(key, value);
    WrittenTrimmed(key, value);
    WrittenParts(key, value);
    WrittenKey(key);
    TrimSpaceSkips(" ", value);
    assert line[0] == key[0];
  }

  /** Values for all the managed keys; an empty one means the key is to go. */
  ghost predicate Good(updates: Settings) {
    updates.Keys == MANAGED && forall k :: k in updates ==> Trimmed(updates[k]) && NEWLINE !in updates[k]
  }

  lemma JailLawful(updates: Settings)
    requires Good(updates)
    ensures Lawful(LEXER, updates)
  {
    forall line ensures LawfulLine(LEXER, updates.Keys, line) {
      LexerLawful(line);
    }
    forall k | k in updates && updates[k] != "" ensures LawfulWrite(LEXER, k, updates[k]) {
      ManagedPlain(k);
      WriteLawful(k, updates[k]);
    }
  }

  // ---------------------------------------------------------------- whole files

  function ParsedName(content: string): string {
    Name(LEXER, Split(content, NEWLINE))
  }

  function Parsed(content: string): Settings {
    Values(LEXER, Split(content, NEWLINE))
  }

  function TrimNewlines(s: string): string {
    if s != [] && s[|s| - 1] == NEWLINE then TrimNewlines(s[..|s| - 1]) else s
  }

  function BaseLines(base: string): seq<string> {
    Split(TrimNewlines(base), NEWLINE)
  }

  function FileText(lines: seq<string>): string {
    Join(lines, NEWLINE) + [NEWLINE]
  }

  function RenderedJail(base: string, updates: Settings): string
    requires updates.Keys == MANAGED
  {
    FileText(Rendered(LEXER, updates, ADDED, BaseLines(base)))
  }

  method ParseJail(content: string) returns (name: string, values: Settings)
    ensures name == ParsedName(content) && values == Parsed(content)
  {
    name, values := Parse(LEXER, Split(content, NEWLINE));
  }

  method RenderPresetJail(base: string, updates: Settings) returns (jail: string)
    requires updates.Keys == MANAGED
    ensures jail == RenderedJail(base, updates)
  {
    var lines := Render(LEXER, updates, ADDED, BaseLines(base));
    jail := FileText(lines);
  }

  lemma EmptyLineEnds(lines: seq<string>)
    ensures Values(LEXER, lines + [""]) == Values(LEXER, lines) && Name(LEXER, lines + [""]) == Name(LEXER, lines)
  {
    assert (lines + [""])[..|lines|] == lines;
  }

  /** Trailing newlines mean nothing. */
  lemma {:induction false} ParsedTrimmed(base: string)
    ensures Values(LEXER, BaseLines(base)) == Parsed(base) && Name(LEXER, BaseLines(base)) == ParsedName(base)
  {
    if base != [] && base[|base| - 1] == NEWLINE {
      var init := base[..|base| - 1];
      assert base == init + [NEWLINE];
      SplitSnoc(init, NEWLINE);
      EmptyLineEnds(Split(init, NEWLINE));
      ParsedTrimmed(init);
    }
  }

  lemma ParsedText(lines: seq<string>)
    requires forall line :: line in lines ==> NEWLINE !in line
    ensures Parsed(FileText(lines)) == Values(LEXER, lines) && ParsedName(FileText(lines)) == Name(LEXER, lines)
  {
    SplitSnoc(Join(lines, NEWLINE), NEWLINE);
    EmptyLineEnds(Split(Join(lines, NEWLINE), NEWLINE));
    if lines == [] {
      EmptyLineEnds([]);
      assert [] + [""] == Split("", NEWLINE);
    } else {
      SplitJoin(lines, NEWLINE);
    }
  }

  lemma {:induction false} JoinEnds(lines: seq<string>)
    requires lines != [] && lines[|lines| - 1] != []
    ensures var last := lines[|lines| - 1];
            |Join(lines, NEWLINE)| > 0 && Join(lines, NEWLINE)[|Join(lines, NEWLINE)| - 1] == last[|last| - 1]
  {
    if |lines| > 1 {
      JoinEnds(lines[1..]);
    }
  }

  lemma LinesOfText(lines: seq<string>)
    requires lines != [] && forall line :: line in lines ==> NEWLINE !in line && line != []
    ensures BaseLines(FileText(lines)) == lines
  {
    var last := lines[|lines| - 1];
    assert last in lines && last[|last| - 1] in last;
    JoinEnds(lines);
    assert FileText(lines)[..|FileText(lines)| - 1] == Join(lines, NEWLINE);
    assert TrimNewlines(FileText(lines)) == TrimNewlines(Join(lines, NEWLINE)) == Join(lines, NEWLINE);
    SplitJoin(lines, NEWLINE);
  }

  lemma {:induction false} MissingWhole(updates: Settings, seen: set<string>, order: seq<string>)
    requires Good(updates) && forall k :: k in order ==> k in updates
    ensures forall line :: line in Missing(LEXER, updates, seen, order) ==> NEWLINE !in line
  {
    if order != [] {
      MissingWhole(updates, seen, order[..|order| - 1]);
      ManagedPlain(order[|order| - 1]);
    }
  }

  lemma RewrittenWhole(updates: Settings, line: string)
    requires Good(updates) && NEWLINE !in line
    ensures NEWLINE !in Rewritten(LEXER, updates, line)
  {
    if Managed(LEXER, updates, line) {
      ManagedPlain(KeyOf(line).value);
    }
  }

  lemma RenderedWhole(updates: Settings, lines: seq<string>)
    requires Good(updates) && forall line :: line in lines ==> NEWLINE !in line
    ensures forall line :: line in Rendered(LEXER, updates, ADDED, lines) ==> NEWLINE !in line && line != []
  {
    MissingWhole(updates, Seen(LEXER, updates, lines), ADDED);
    forall i | 0 <= i < |lines| ensures NEWLINE !in Rewritten(LEXER, updates, lines[i]) {
      assert lines[i] in lines;
      RewrittenWhole(updates, lines[i]);
    }
    forall line | line in Rendered(LEXER, updates, ADDED, lines) ensures NEWLINE !in line && line != [] {
      CompactKeeps(LEXER, RewriteAll(LEXER, updates, lines)
                          + Missing(LEXER, updates, Seen(LEXER, updates, lines), ADDED), line);
      if line !in Missing(LEXER, updates, Seen(LEXER, updates, lines), ADDED) {
        var i :| 0 <= i < |lines| && line == RewriteAll(LEXER, updates, lines)[i];
      }
    }
  }

  /** Parsing a rendered jail gives the base's settings with the managed ones replaced. */
  lemma ParsedRendered(base: string, updates: Settings)
    requires Good(updates)
    ensures Parsed(RenderedJail(base, updates)) == Updated(Parsed(base), updates, ADDED)
    ensures ParsedName(RenderedJail(base, updates)) == ParsedName(base)
  {
    JailLawful(updates);
    RenderedValues(LEXER, updates, ADDED, BaseLines(base));
    ParsedTrimmed(base);
    RenderedWhole(updates, BaseLines(base));
    ParsedText(Rendered(LEXER, updates, ADDED, BaseLines(base)));
  }

  predicate HasMandatory(base: Settings, updates: Settings)
    requires updates.Keys == MANAGED
  {
    forall k :: k in MANDATORY && updates[k] != "" ==> k in base
  }

  lemma MandatoryNotDropped(base: Settings, updates: Settings)
    requires updates.Keys == MANAGED
    ensures NoneDropped(base, updates, ADDED) <==> HasMandatory(base, updates)
  {
    assert forall k :: k in MANAGED ==> (k in MANDATORY <==> k !in ADDED);
  }

  /** The wanted settings come back if and only if the base has every mandatory key that is to be set. */
  lemma RenderReadsBack(base: string, updates: Settings)
    requires Good(updates)
    ensures Parsed(RenderedJail(base, updates)) == Wanted(Parsed(base), updates)
            <==> HasMandatory(Parsed(base), updates)
  {
    ParsedRendered(base, updates);
    UpdatedIsWanted(Parsed(base), updates, ADDED);
    MandatoryNotDropped(Parsed(base), updates);
  }

  lemma RenderedFromText(updates: Settings, lines: seq<string>)
    requires Good(updates) && forall line :: line in lines ==> NEWLINE !in line && line != []
    ensures Rendered(LEXER, updates, ADDED, BaseLines(FileText(lines))) == Rendered(LEXER, updates, ADDED, lines)
  {
    if lines == [] {
      assert TrimNewlines([NEWLINE]) == TrimNewlines("") == "";
      RenderedBlank(LEXER, updates, ADDED, "");
    } else {
      LinesOfText(lines);
    }
  }

  /** Rendering is idempotent. */
  lemma RenderTwice(base: string, updates: Settings)
    requires Good(updates)
    ensures RenderedJail(RenderedJail(base, updates), updates) == RenderedJail(base, updates)
  {
    JailLawful(updates);
    RenderedTwice(LEXER, updates, ADDED, BaseLines(base));
    RenderedWhole(updates, BaseLines(base));
    RenderedFromText(updates, Rendered(LEXER, updates, ADDED, BaseLines(base)));
  }
}
