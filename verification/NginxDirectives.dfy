/**
  The nginx configuration editor: reading and replacing a directive at a brace depth or inside a
  block.  Comments and surrounding blanks are ignored; a line counts for the braces it opens minus
  those it closes.
*/
module NginxDirectives {
  import opened Options
  import opened Text
  import opened BraceScan

  datatype Edit = Edited(content: string) | NotFound

  const NEWLINE := '\n'
  const INSERT_INDENT := "    "

  // ---------------------------------------------------------------- lines

  function Clean(raw: string): string {
    TrimSpace(UpTo(raw, '#'))
  }

  function Delta(raw: string): int {
    Count(Clean(raw), '{') - Count(Clean(raw), '}')
  }

  predicate Sets(raw: string, directive: string) {
    HasPrefix(Clean(raw), directive + " ")
  }

  function TrimSemicolon(s: string): string {
    if s != [] && s[|s| - 1] == ';' then s[..|s| - 1] else s
  }

  function ValueOf(raw: string, directive: string): string {
    var line := Clean(raw);
    TrimSemicolon(TrimSpace(if HasPrefix(line, directive) then line[|directive|..] else line))
  }

  /** The leading spaces and tabs of a line. */
  function Indent(raw: string): (r: string)
    ensures r <= raw && AllSpace(r) && forall i :: 0 <= i < |r| ==> r[i] == ' ' || r[i] == '\t'
  {
    if raw != [] && (raw[0] == ' ' || raw[0] == '\t') then [raw[0]] + Indent(raw[1..]) else []
  }

  function Setting(indent: string, directive: string, value: string): string {
    indent + directive + " " + value + ";"
  }

  /** Directive names and values that the editor can write and read back. */
  predicate Word(directive: string) {
    directive != [] && forall c :: c in directive ==> !IsSpace(c) && c != '#' && c != '{' && c != '}'
  }

  predicate Plain(value: string) {
    (value != [] ==> !IsSpace(value[0])) && '#' !in value && NEWLINE !in value
  }

  predicate BraceFree(value: string) {
    '{' !in value && '}' !in value
  }

  lemma CleanSetting(indent: string, directive: string, value: string)
    requires AllSpace(indent) && '#' !in indent && Word(directive) && Plain(value)
    ensures Clean(Setting(indent, directive, value)) == directive + " " + value + ";"
  {
    var body := directive + " " + value + ";";
    assert Setting(indent, directive, value) == indent + body;
    assert '#' !in body;
    assert body[0] == directive[0] && directive[0] in directive;
    TrimSpaceSkips(indent, body);
  }

  lemma StatementParts(directive: string, value: string)
    ensures var line := directive + " " + value + ";";
            directive <= line && directive + " " <= line && line[|directive|..] == " " + (value + ";")
  {
  }

  lemma StatementValue(value: string)
    requires Plain(value)
    ensures TrimSemicolon(TrimSpace(" " + (value + ";"))) == value
  {
    TrimSpaceSkips(" ", value + ";");
    assert (value + ";")[..|value|] == value;
  }

  /** What was written on a line is what is read from it. */
  lemma SettingReads(indent: string, directive: string, value: string)
    requires AllSpace(indent) && '#' !in indent && Word(directive) && Plain(value)
    ensures Sets(Setting(indent, directive, value), directive)
    ensures ValueOf(Setting(indent, directive, value), directive) == value
  {
    CleanSetting(indent, directive, value);
    StatementParts(directive, value);
    StatementValue(value);
  }

  lemma SettingDelta(indent: string, directive: string, value: string)
    requires AllSpace(indent) && '#' !in indent && Word(directive) && Plain(value) && BraceFree(value)
    ensures Delta(Setting(indent, directive, value)) == 0
  {
    CleanSetting(indent, directive, value);
    var line := directive + " " + value + ";";
    assert '{' !in line && '}' !in line;
  }

  lemma SettingTail(indent: string, directive: string, value: string)
    requires indent != []
    ensures var s := Setting(indent, directive, value);
            s != [] && s[0] == indent[0] && s[1..] == Setting(indent[1..], directive, value)
  {
  }

  lemma IndentOfSetting(indent: string, directive: string, value: string)
    requires (forall i :: 0 <= i < |indent| ==> indent[i] == ' ' || indent[i] == '\t') && Word(directive)
    ensures Indent(Setting(indent, directive, value)) == indent
    decreases |indent|
  {
    var s := Setting(indent, directive, value);
    if indent == [] {
      assert s[0] == directive[0] && directive[0] in directive;
    } else {
      SettingTail(indent, directive, value);
      IndentOfSetting(indent[1..], directive, value);
      assert [indent[0]] + indent[1..] == indent;
    }
  }

  // ---------------------------------------------------------------- at a depth

  function Setter(directive: string): string -> bool {
    raw => Sets(raw, directive)
  }

  function Read(lines: seq<string>, directive: string, target: int): string {
    var at := Find(lines, Delta, Setter(directive), target, 0);
    if at.None? then "" else ValueOf(lines[at.value], directive)
  }

  function Replace(lines: seq<string>, directive: string, value: string, target: int): Option<seq<string>> {
    var at := Find(lines, Delta, Setter(directive), target, 0);
    if at.None? then None else Some(SetLine(lines, at.value, directive, value))
  }

  /** The line rewritten in place, with its indentation. */
  function SetLine(lines: seq<string>, at: nat, directive: string, value: string): seq<string>
    requires at < |lines|
  {
    lines[at := Setting(Indent(lines[at]), directive, value)]
  }

  method DirectiveAtDepth(content: string, directive: string, target: int) returns (value: string)
    ensures value == Read(Split(content, NEWLINE), directive, target)
  {
    var lines := Split(content, NEWLINE);
    var at := FindAtDepth(lines, Delta, Setter(directive), target);
    return if at.None? then "" else ValueOf(lines[at.value], directive);
  }

  method ReplaceDirectiveAtDepth(content: string, directive: string, value: string, target: int) returns (r: Edit)
    ensures var edited := Replace(Split(content, NEWLINE), directive, value, target);
            r == if edited.None? then NotFound else Edited(Join(edited.value, NEWLINE))
  {
    var lines := Split(content, NEWLINE);
    var at := FindAtDepth(lines, Delta, Setter(directive), target);
    return if at.None? then NotFound else Edited(Join(SetLine(lines, at.value, directive, value), NEWLINE));
  }

  lemma IndentPlain(raw: string)
    ensures '#' !in Indent(raw) && NEWLINE !in Indent(raw)
  {
  }

  /** A rewritten line reads back, keeps its indentation and holds no brace of its own. */
  lemma LineSet(raw: string, directive: string, value: string)
    requires Word(directive) && Plain(value)
    ensures var line := Setting(Indent(raw), directive, value);
            && Sets(line, directive) && ValueOf(line, directive) == value && Indent(line) == Indent(raw)
            && (BraceFree(value) ==> Delta(line) == 0)
            && (NEWLINE !in line)
  {
    IndentPlain(raw);
    SettingReads(Indent(raw), directive, value);
    IndentOfSetting(Indent(raw), directive, value);
    if BraceFree(value) {
      SettingDelta(Indent(raw), directive, value);
    }
    SettingWhole(Indent(raw), directive, value);
  }

  lemma SettingWhole(indent: string, directive: string, value: string)
    requires NEWLINE !in indent && Word(directive) && NEWLINE !in value
    ensures NEWLINE !in Setting(indent, directive, value)
  {
    assert NEWLINE !in directive;
  }

  lemma SetLineTwice(lines: seq<string>, at: nat, directive: string, v: string, w: string)
    requires at < |lines| && Word(directive) && Plain(v)
    ensures SetLine(SetLine(lines, at, directive, v), at, directive, w) == SetLine(lines, at, directive, w)
  {
    LineSet(lines[at], directive, v);
  }

  /** Reading after a replace gives the new value, from the same line; a second replace overrides the
      first; every other line is as before. */
  lemma ReplaceLaws(lines: seq<string>, directive: string, v: string, w: string, target: int)
    requires Word(directive) && Plain(v) && Plain(w) && Replace(lines, directive, v, target).Some?
    ensures var edited := Replace(lines, directive, v, target).value;
            && Read(edited, directive, target) == v
            && Replace(edited, directive, w, target) == Replace(lines, directive, w, target)
            && OneLineDiffers(lines, edited, Find(lines, Delta, Setter(directive), target, 0).value)
  {
    var at := Find(lines, Delta, Setter(directive), target, 0).value;
    LineSet(lines[at], directive, v);
    FindReplaced(lines, Delta, Setter(directive), target, 0, Setting(Indent(lines[at]), directive, v));
    SetLineTwice(lines, at, directive, v, w);
  }

  ghost predicate OneLineDiffers(a: seq<string>, b: seq<string>, at: nat) {
    |a| == |b| && forall k :: 0 <= k < |a| && k != at ==> a[k] == b[k]
  }

  predicate Whole(lines: seq<string>) {
    forall line :: line in lines ==> NEWLINE !in line
  }

  /** The same laws for whole texts: the edited text is read back as edited. */
  lemma EditReadsBack(content: string, directive: string, value: string, target: int)
    requires Word(directive) && Plain(value) && Replace(Split(content, NEWLINE), directive, value, target).Some?
    ensures var text := Join(Replace(Split(content, NEWLINE), directive, value, target).value, NEWLINE);
            && Split(text, NEWLINE) == Replace(Split(content, NEWLINE), directive, value, target).value
            && Read(Split(text, NEWLINE), directive, target) == value
  {
    var lines := Split(content, NEWLINE);
    ReplaceLaws(lines, directive, value, value, target);
    var at := Find(lines, Delta, Setter(directive), target, 0).value;
    LineSet(lines[at], directive, value);
    SplitJoin(Replace(lines, directive, value, target).value, NEWLINE);
  }

  // ---------------------------------------------------------------- comments and names

  lemma {:induction false} UpToComment(raw: string, comment: string, c: char)
    ensures UpTo(raw + [c] + comment, c) == UpTo(raw, c)
  {
    if raw == [] {
      assert (raw + [c] + comment)[0] == c;
    } else {
      assert (raw + [c] + comment)[1..] == raw[1..] + [c] + comment;
      UpToComment(raw[1..], comment, c);
    }
  }

  /** What follows a `#` changes neither what is read from a line nor the depth after it. */
  lemma CommentIsIgnored(raw: string, comment: string, directive: string)
    ensures var line := raw + ['#'] + comment;
            && Sets(line, directive) == Sets(raw, directive)
            && ValueOf(line, directive) == ValueOf(raw, directive)
            && Delta(line) == Delta(raw)
  {
    UpToComment(raw, comment, '#');
  }

  /** A directive whose name only begins like another one is not read as that one. */
  lemma LongerNameIsNotRead(raw: string, directive: string, more: string, value: string)
    requires Word(directive) && Word(directive + more) && more != "" && Plain(value)
    ensures !Sets(Setting(Indent(raw), directive + more, value), directive)
  {
    SettingSetsOne(raw, directive + more, value, directive);
  }

  // ---------------------------------------------------------------- in a block

  predicate Opens(raw: string, block: string) {
    HasPrefix(Clean(raw), block) && '{' in Clean(raw)
  }

  function Opener(block: string): string -> bool {
    raw => Opens(raw, block)
  }

  function ReadInBlock(lines: seq<string>, block: string, directive: string): string {
    var b := Block(lines, Delta, Opener(block), 0);
    if b.None? then "" else Read(Body(lines, b.value), directive, 0)
  }

  function ReplaceInBlock(lines: seq<string>, block: string, directive: string, value: string): Option<seq<string>> {
    var b := Block(lines, Delta, Opener(block), 0);
    if b.None? then None
    else
      var at := Target(lines, Setter(directive), b.value);
      Some(if at.Some? then SetLine(lines, at.value, directive, value)
           else Inserted(lines, b.value.0 + 1, Setting(INSERT_INDENT, directive, value)))
  }

  method DirectiveInBlock(content: string, block: string, directive: string) returns (value: string)
    ensures value == ReadInBlock(Split(content, NEWLINE), block, directive)
  {
    var lines := Split(content, NEWLINE);
    var b := FindBlock(lines, Delta, Opener(block));
    if b.None? {
      return "";
    }
    var body := Body(lines, b.value);
    if body == [] {
      return "";  // an empty body joins to the empty text, which sets nothing
    }
    SplitJoin(body, NEWLINE);
    value := DirectiveAtDepth(Join(body, NEWLINE), directive, 0);
  }

  method ReplaceDirectiveInBlock(content: string, block: string, directive: string, value: string) returns (r: Edit)
    ensures var edited := ReplaceInBlock(Split(content, NEWLINE), block, directive, value);
            r == if edited.None? then NotFound else Edited(Join(edited.value, NEWLINE))
  {
    var lines := Split(content, NEWLINE);
    var b := FindBlock(lines, Delta, Opener(block));
    if b.None? {
      return NotFound;
    }
    var (start, end) := b.value;
    var sets := Setter(directive);
    for i := start + 1 to end
      invariant First(lines, sets, start + 1, end) == First(lines, sets, i, end)
    {
      if sets(lines[i]) {
        return Edited(Join(SetLine(lines, i, directive, value), NEWLINE));
      }
    }
    return Edited(Join(Inserted(lines, start + 1, Setting(INSERT_INDENT, directive, value)), NEWLINE));
  }

  /** A block without the directive gets it as its first line, whatever the block holds. */
  lemma InsertLaws(lines: seq<string>, block: string, directive: string, v: string, w: string, b: (nat, nat))
    requires Word(directive) && Plain(v) && BraceFree(v)
    requires Block(lines, Delta, Opener(block), 0) == Some(b) && Target(lines, Setter(directive), b).None?
    ensures var edited := ReplaceInBlock(lines, block, directive, v).value;
            && edited == Inserted(lines, b.0 + 1, Setting(INSERT_INDENT, directive, v))
            && Block(edited, Delta, Opener(block), 0) == Some((b.0, b.1 + 1))
            && ReadInBlock(edited, block, directive) == v
            && ReplaceInBlock(edited, block, directive, w) == ReplaceInBlock(lines, block, directive, w)
  {
    var line := Setting(INSERT_INDENT, directive, v);
    SettingReads(INSERT_INDENT, directive, v);
    SettingDelta(INSERT_INDENT, directive, v);
    InsertReads(lines, block, directive, b, line);
    EditedLines(lines, block, directive, v, b);
    EditedLines(lines, block, directive, w, b);
    EditedLines(Inserted(lines, b.0 + 1, line), block, directive, w, (b.0, b.1 + 1));
    InsertThenSet(lines, b.0 + 1, directive, v, w);
  }

  lemma InsertReads(lines: seq<string>, block: string, directive: string, b: (nat, nat), line: string)
    requires Block(lines, Delta, Opener(block), 0) == Some(b) && Sets(line, directive) && Delta(line) == 0
    ensures var edited, c := Inserted(lines, b.0 + 1, line), (b.0, b.1 + 1);
            && Block(edited, Delta, Opener(block), 0) == Some(c)
            && Target(edited, Setter(directive), c) == Some(b.0 + 1)
            && ReadInBlock(edited, block, directive) == ValueOf(line, directive)
  {
    InsertInBlock(lines, Delta, Opener(block), Setter(directive), b, line);
  }

  lemma InsertThenSet(lines: seq<string>, at: nat, directive: string, v: string, w: string)
    requires at <= |lines| && Word(directive)
    ensures SetLine(Inserted(lines, at, Setting(INSERT_INDENT, directive, v)), at, directive, w)
            == Inserted(lines, at, Setting(INSERT_INDENT, directive, w))
  {
    IndentOfSetting(INSERT_INDENT, directive, v);
  }

  lemma RewriteReads(lines: seq<string>, block: string, directive: string, b: (nat, nat), at: nat, line: string)
    requires Block(lines, Delta, Opener(block), 0) == Some(b) && Target(lines, Setter(directive), b) == Some(at)
    requires Sets(line, directive) && Delta(line) == Delta(lines[at])
    ensures ReadInBlock(lines[at := line], block, directive)
            == (if Depth(Body(lines, b), Delta, 0, at - b.0 - 1) == 0 then ValueOf(line, directive)
                else ReadInBlock(lines, block, directive))
  {
    RewriteInBlock(lines, Delta, Opener(block), Setter(directive), b, at, line);
  }

  /** A block with the directive has its first occurrence rewritten.  The reader looks at the body's
      outermost depth only, so it sees the new value if the line is there and sees no change if not. */
  lemma RewriteLaws(lines: seq<string>, block: string, directive: string, v: string, b: (nat, nat), at: nat)
    requires Word(directive) && Plain(v) && BraceFree(v)
    requires Block(lines, Delta, Opener(block), 0) == Some(b)
    requires Target(lines, Setter(directive), b) == Some(at) && Delta(lines[at]) == 0
    ensures var edited := ReplaceInBlock(lines, block, directive, v).value;
            && Block(edited, Delta, Opener(block), 0) == Some(b)
            && ReadInBlock(edited, block, directive)
               == (if Depth(Body(lines, b), Delta, 0, at - b.0 - 1) == 0 then v
                   else ReadInBlock(lines, block, directive))
            && OneLineDiffers(lines, edited, at)
  {
    var line := Setting(Indent(lines[at]), directive, v);
    LineSet(lines[at], directive, v);
    BlockReplaced(lines, Delta, Opener(block), 0, at, line);
    RewriteReads(lines, block, directive, b, at, line);
  }

  lemma RewriteTwice(lines: seq<string>, block: string, directive: string, v: string, w: string, b: (nat, nat), at: nat)
    requires Word(directive) && Plain(v) && BraceFree(v)
    requires Block(lines, Delta, Opener(block), 0) == Some(b)
    requires Target(lines, Setter(directive), b) == Some(at) && Delta(lines[at]) == 0
    ensures var edited := ReplaceInBlock(lines, block, directive, v).value;
            ReplaceInBlock(edited, block, directive, w) == ReplaceInBlock(lines, block, directive, w)
  {
    LineSet(lines[at], directive, v);
    RewriteInBlock(lines, Delta, Opener(block), Setter(directive), b, at, Setting(Indent(lines[at]), directive, v));
    SetLineTwice(lines, at, directive, v, w);
  }

  /** The line holds no unbalanced brace and is not inside a nested block of the block's body. */
  predicate AtTop(lines: seq<string>, b: (nat, nat), at: nat)
    requires b.0 < at < b.1 < |lines|
  {
    Delta(lines[at]) == 0 && Depth(Body(lines, b), Delta, 0, at - b.0 - 1) == 0
  }

  /** The block does not set the directive, or sets it first at its outermost depth. */
  predicate Editable(lines: seq<string>, directive: string, b: (nat, nat))
    requires b.0 < b.1 < |lines|
  {
    var at := Target(lines, Setter(directive), b);
    at.Some? ==> AtTop(lines, b, at.value)
  }

  /** In an editable block a replace reads back, and the last one wins. */
  lemma BlockLaws(lines: seq<string>, block: string, directive: string, v: string, w: string, b: (nat, nat))
    requires Word(directive) && Plain(v) && BraceFree(v)
    requires Block(lines, Delta, Opener(block), 0) == Some(b) && Editable(lines, directive, b)
    ensures var edited := ReplaceInBlock(lines, block, directive, v).value;
            && ReadInBlock(edited, block, directive) == v
            && ReplaceInBlock(edited, block, directive, w) == ReplaceInBlock(lines, block, directive, w)
  {
    var at := Target(lines, Setter(directive), b);
    if at.None? {
      InsertLaws(lines, block, directive, v, w, b);
    } else {
      RewriteLaws(lines, block, directive, v, b, at.value);
      RewriteTwice(lines, block, directive, v, w, b, at.value);
    }
  }

  lemma {:induction false} FlatDepth(lines: seq<string>, from: nat, i: nat)
    requires from <= i <= |lines| && forall k :: from <= k < i ==> Delta(lines[k]) == 0
    ensures Depth(lines, Delta, from, i) == 0
    decreases i - from
  {
    if from < i {
      FlatDepth(lines, from + 1, i);
    }
  }

  lemma BraceFreeDelta(raw: string)
    requires BraceFree(Clean(raw))
    ensures Delta(raw) == 0
  {
  }

  /** A block whose body holds no braces, comments aside, is editable for every directive. */
  lemma FlatIsEditable(lines: seq<string>, b: (nat, nat), directive: string)
    requires b.0 < b.1 < |lines| && forall k :: b.0 < k < b.1 ==> BraceFree(Clean(lines[k]))
    ensures Editable(lines, directive, b)
  {
    var at := Target(lines, Setter(directive), b);
    if at.Some? {
      var body := Body(lines, b);
      forall k | 0 <= k < |body| ensures Delta(body[k]) == 0 {
        assert body[k] == lines[b.0 + 1 + k];
        BraceFreeDelta(lines[b.0 + 1 + k]);
      }
      assert body[at.value - b.0 - 1] == lines[at.value];
      FlatDepth(body, 0, at.value - b.0 - 1);
    }
  }

  lemma {:induction false} UpToWord(line: string, d: string)
    requires ' ' !in d && d + " " <= line
    ensures UpTo(line, ' ') == d
    decreases |d|
  {
    assert line[|d|] == (d + " ")[|d|];
    if d != [] {
      assert line[0] == (d + " ")[0] && (d + " ")[1..] == d[1..] + " ";
      UpToWord(line[1..], d[1..]);
    }
  }

  /** No line sets two directives. */
  lemma SetsOne(raw: string, d: string, e: string)
    requires Word(d) && Word(e) && Sets(raw, d) && Sets(raw, e)
    ensures d == e
  {
    UpToWord(Clean(raw), d);
    UpToWord(Clean(raw), e);
  }

  /** Editing one directive in a block does not change what any other directive reads as. */
  lemma BlockEditKeepsOthers(lines: seq<string>, block: string, directive: string, v: string, b: (nat, nat),
                             other: string, target: int)
    requires Word(directive) && Plain(v) && BraceFree(v) && Word(other) && other != directive
    requires Block(lines, Delta, Opener(block), 0) == Some(b)
    requires var at := Target(lines, Setter(directive), b); at.Some? ==> Delta(lines[at.value]) == 0
    ensures Read(ReplaceInBlock(lines, block, directive, v).value, other, target) == Read(lines, other, target)
  {
    var at := Target(lines, Setter(directive), b);
    EditedLines(lines, block, directive, v, b);
    if at.None? {
      InsertKeepsOthers(lines, b.0 + 1, directive, v, other, target);
    } else {
      SetKeepsOthers(lines, at.value, directive, v, other, target);
    }
  }

  /** For any line that is rewritten, whatever braces it held: another directive is found at the first line
      that is at the target depth once the lines after the rewritten one are shifted by those braces. */
  lemma BlockEditShiftsOthers(lines: seq<string>, block: string, directive: string, v: string, b: (nat, nat), at: nat,
                              other: string, target: int, k: nat)
    requires Word(directive) && Plain(v) && BraceFree(v) && Word(other) && other != directive && k < |lines|
    requires Block(lines, Delta, Opener(block), 0) == Some(b) && Target(lines, Setter(directive), b) == Some(at)
    ensures var edited := ReplaceInBlock(lines, block, directive, v).value;
            Find(edited, Delta, Setter(other), target, 0) == Some(k)
            <==> (ShiftedHit(lines, Delta, Setter(other), target, at, Delta(lines[at]), k)
                  && NoShiftedHitBefore(lines, Delta, Setter(other), target, at, Delta(lines[at]), k))
  {
    EditedLines(lines, block, directive, v, b);
    SetShiftsOthers(lines, at, directive, v, other, target, k);
  }

  lemma SettingSetsOne(raw: string, directive: string, v: string, other: string)
    requires Word(directive) && Plain(v) && Word(other) && other != directive
    ensures !Sets(Setting(Indent(raw), directive, v), other)
  {
    LineSet(raw, directive, v);
    if Sets(Setting(Indent(raw), directive, v), other) {
      SetsOne(Setting(Indent(raw), directive, v), directive, other);
    }
  }

  lemma LineShiftsOthers(lines: seq<string>, at: nat, line: string, sets: string -> bool, target: int, k: nat,
                         shift: int)
    requires at < |lines| && k < |lines| && !sets(line) && shift == Delta(lines[at]) - Delta(line)
    ensures Find(lines[at := line], Delta, sets, target, 0) == Some(k)
            <==> (ShiftedHit(lines, Delta, sets, target, at, shift, k)
                  && NoShiftedHitBefore(lines, Delta, sets, target, at, shift, k))
  {
    FindShiftedIff(lines, Delta, sets, target, at, line, k);
  }

  lemma SetShiftsOthers(lines: seq<string>, at: nat, directive: string, v: string, other: string, target: int, k: nat)
    requires at < |lines| && k < |lines|
    requires Word(directive) && Plain(v) && BraceFree(v) && Word(other) && other != directive
    ensures Find(SetLine(lines, at, directive, v), Delta, Setter(other), target, 0) == Some(k)
            <==> (ShiftedHit(lines, Delta, Setter(other), target, at, Delta(lines[at]), k)
                  && NoShiftedHitBefore(lines, Delta, Setter(other), target, at, Delta(lines[at]), k))
  {
    LineSet(lines[at], directive, v);
    SettingSetsOne(lines[at], directive, v, other);
    LineShiftsOthers(lines, at, Setting(Indent(lines[at]), directive, v), Setter(other), target, k, Delta(lines[at]));
  }

  lemma EditedLines(lines: seq<string>, block: string, directive: string, v: string, b: (nat, nat))
    requires Block(lines, Delta, Opener(block), 0) == Some(b)
    ensures var at := Target(lines, Setter(directive), b);
            ReplaceInBlock(lines, block, directive, v)
            == Some(if at.Some? then SetLine(lines, at.value, directive, v)
                    else Inserted(lines, b.0 + 1, Setting(INSERT_INDENT, directive, v)))
  {
  }

  lemma InsertKeepsOthers(lines: seq<string>, at: nat, directive: string, v: string, other: string, target: int)
    requires at <= |lines| && Word(directive) && Plain(v) && BraceFree(v) && Word(other) && other != directive
    ensures Read(Inserted(lines, at, Setting(INSERT_INDENT, directive, v)), other, target) == Read(lines, other, target)
  {
    var line := Setting(INSERT_INDENT, directive, v);
    SettingReads(INSERT_INDENT, directive, v);
    SettingDelta(INSERT_INDENT, directive, v);
    if Sets(line, other) {
      SetsOne(line, directive, other);
    }
    FoundInserted(lines, Delta, Setter(other), target, at, line);
  }

  lemma SetKeepsOthers(lines: seq<string>, at: nat, directive: string, v: string, other: string, target: int)
    requires at < |lines| && Word(directive) && Plain(v) && BraceFree(v) && Word(other) && other != directive
    requires Sets(lines[at], directive) && Delta(lines[at]) == 0
    ensures Read(SetLine(lines, at, directive, v), other, target) == Read(lines, other, target)
  {
    var line := Setting(Indent(lines[at]), directive, v);
    LineSet(lines[at], directive, v);
    if Sets(line, other) {
      SetsOne(line, directive, other);
    }
    if Sets(lines[at], other) {
      SetsOne(lines[at], directive, other);
    }
    FindUnaffected(lines, Delta, Setter(other), target, 0, at, line);
  }

  // ---------------------------------------------------------------- the two edits of the main file

  /** Saving settings edits the main file with the process count at depth 0 and the connection count in
      the events block; `d`, `block` and `e` are those names. */
  method EditMain(content: string, d: string, v: string, block: string, e: string, w: string) returns (r: Edit)
    requires Word(d) && Plain(v)
    ensures var first := Replace(Split(content, NEWLINE), d, v, 0);
            r == if first.None? then NotFound
                 else
                   var second := ReplaceInBlock(first.value, block, e, w);
                   if second.None? then NotFound else Edited(Join(second.value, NEWLINE))
  {
    r := ReplaceDirectiveAtDepth(content, d, v, 0);
    if r == NotFound {
      return;
    }
    EditReadsBack(content, d, v, 0);
    r := ReplaceDirectiveInBlock(r.content, block, e, w);
  }

  /** The edited lines are the lines of the edited text. */
  lemma BlockEditSplits(lines: seq<string>, block: string, directive: string, v: string, b: (nat, nat))
    requires Word(directive) && Plain(v) && Block(lines, Delta, Opener(block), 0) == Some(b) && Whole(lines)
    ensures var edited := ReplaceInBlock(lines, block, directive, v).value;
            Split(Join(edited, NEWLINE), NEWLINE) == edited
  {
    var at := Target(lines, Setter(directive), b);
    if at.Some? {
      LineSet(lines[at.value], directive, v);
      WholeAfter(lines, at.value, Setting(Indent(lines[at.value]), directive, v));
    } else {
      assert NEWLINE !in directive;
      WholeAfter(lines, b.0 + 1, Setting(INSERT_INDENT, directive, v));
    }
  }

  lemma WholeAfter(lines: seq<string>, at: nat, line: string)
    requires Whole(lines) && at < |lines| && NEWLINE !in line
    ensures Split(Join(lines[at := line], NEWLINE), NEWLINE) == lines[at := line]
    ensures Split(Join(Inserted(lines, at, line), NEWLINE), NEWLINE) == Inserted(lines, at, line)
  {
    SplitJoin(lines[at := line], NEWLINE);
    SplitJoin(Inserted(lines, at, line), NEWLINE);
  }

  /** An edit at a depth followed by an edit in a block, as saving the settings does: both directives
      read back. */
  lemma BothReadBack(lines: seq<string>, d: string, v: string, block: string, e: string, w: string, b: (nat, nat))
    requires Word(d) && Word(e) && d != e && Plain(v) && Plain(w) && BraceFree(w)
    requires Replace(lines, d, v, 0).Some?
    requires var first := Replace(lines, d, v, 0).value;
             Block(first, Delta, Opener(block), 0) == Some(b) && Editable(first, e, b)
    ensures var second := ReplaceInBlock(Replace(lines, d, v, 0).value, block, e, w).value;
            && Read(second, d, 0) == v
            && ReadInBlock(second, block, e) == w
  {
    ReplaceLaws(lines, d, v, v, 0);
    BlockLaws(Replace(lines, d, v, 0).value, block, e, w, w, b);
    BlockEditKeepsOthers(Replace(lines, d, v, 0).value, block, e, w, b, d, 0);
  }

  lemma CleanAsIs(raw: string)
    requires Trimmed(raw) && '#' !in raw
    ensures Clean(raw) == raw
  {
    TrimSpaceSkips("", raw);
    assert "" + raw == raw;
  }

  lemma BlockLines()
    ensures Delta("b {") == 1 && Delta("x {") == 1 && Delta("}") == -1
    ensures Opens("b {", "b") && Clean("x {") == "x {" && Clean("}") == "}"
  {
    CleanAsIs("b {");
    CleanAsIs("x {");
    CleanAsIs("}");
    assert "b {"[1..] == " {" && "x {"[1..] == " {" && " {"[1..] == "{" && "{"[1..] == "" && "}"[1..] == "";
  }

  lemma NestedIsMissed(block: string, d: string, v: string, open: string, inner: string, first: string, close: string,
                       second: string)
    requires Delta(open) == 1 && Delta(inner) == 1 && Delta(close) == -1 && Delta(first) == Delta(second) == 0
    requires Opens(open, block) && Sets(first, d) && Sets(second, d) && !Sets(inner, d) && !Sets(close, d)
    requires Word(d) && Plain(v) && BraceFree(v)
    ensures var lines := [open, inner, first, close, second, close];
            && ReplaceInBlock(lines, block, d, v).Some?
            && ReadInBlock(ReplaceInBlock(lines, block, d, v).value, block, d) == ValueOf(second, d)
  {
    NestedSearch(Delta, Opener(block), Setter(d), open, inner, first, close, second);
    RewriteLaws([open, inner, first, close, second, close], block, d, v, (0, 5), 2);
  }

  /** The reader and the writer disagree about a nested occurrence: the writer reports success, and
      the reader still sees the other value. */
  lemma NestedOccurrenceIsMissed(d: string, nested: string, outer: string, v: string)
    requires Word(d) && d != "x" && Plain(v) && BraceFree(v)
    requires Plain(nested) && BraceFree(nested) && Plain(outer) && BraceFree(outer)
    ensures var lines := ["b {", "x {", Setting("", d, nested), "}", Setting("", d, outer), "}"];
            && ReplaceInBlock(lines, "b", d, v).Some?
            && ReadInBlock(ReplaceInBlock(lines, "b", d, v).value, "b", d) == outer
  {
    BlockLines();
    SettingReads("", d, nested);
    SettingReads("", d, outer);
    SettingDelta("", d, nested);
    SettingDelta("", d, outer);
    if Sets("x {", d) {
      UpToWord("x {", d);
      UpToWord("x {", "x");
    }
    NestedIsMissed("b", d, v, "b {", "x {", Setting("", d, nested), "}", Setting("", d, outer));
  }
}
