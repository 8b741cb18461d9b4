/**
  Reading settings from lines and rewriting some of them.  A lexer says what a line means; nothing
  here depends on what a line is.
*/
module JailLines {
  import opened Options

  type Entry = (string, string)
  type Settings = map<string, string>

  /** `header` and `entry` are what the parser sees in a line, `key` is what the renderer sees. */
  datatype Lexer<!L> = Lexer(header: L -> Option<string>, entry: L -> Option<Entry>, key: L -> Option<string>,
                             blank: L -> bool, write: (string, string) -> L, empty: L)

  ghost predicate LawfulLine<L>(x: Lexer<L>, managed: set<string>, line: L) {
    && (x.entry(line).Some? ==> x.key(line) == Some(x.entry(line).value.0) && x.header(line).None?)
    && (x.key(line).Some? && x.key(line).value in managed ==> x.entry(line).Some?)
    && (x.blank(line) ==> x.header(line).None? && x.entry(line).None?)
  }

  ghost predicate LawfulWrite<L>(x: Lexer<L>, key: string, value: string) {
    && x.entry(x.write(key, value)) == Some((key, value))
    && x.key(x.write(key, value)) == Some(key)
    && x.header(x.write(key, value)).None?
    && !x.blank(x.write(key, value))
  }

  /** Parser and renderer agree on the lines, and on what is written for the updates. */
  ghost predicate Lawful<L(!new)>(x: Lexer<L>, updates: Settings) {
    && x.blank(x.empty)
    && (forall line :: LawfulLine(x, updates.Keys, line))
    && (forall k :: k in updates && updates[k] != "" ==> LawfulWrite(x, k, updates[k]))
  }

  // ---------------------------------------------------------------- reading

  function Values<L>(x: Lexer<L>, lines: seq<L>): Settings {
    if lines == [] then map[]
    else
      var e := x.entry(lines[|lines| - 1]);
      var before := Values(x, lines[..|lines| - 1]);
      if e.None? then before else before[e.value.0 := e.value.1]
  }

  function Name<L>(x: Lexer<L>, lines: seq<L>): string {
    if lines == [] then ""
    else
      var h := x.header(lines[|lines| - 1]);
      if h.Some? then h.value else Name(x, lines[..|lines| - 1])
  }

  method Parse<L>(x: Lexer<L>, lines: seq<L>) returns (name: string, values: Settings)
    ensures name == Name(x, lines) && values == Values(x, lines)
  {
    name, values := "", map[];
    for i := 0 to |lines|
      invariant name == Name(x, lines[..i]) && values == Values(x, lines[..i])
    {
      var h, e := x.header(lines[i]), x.entry(lines[i]);
      assert lines[..i + 1][..i] == lines[..i];
      if h.Some? {
        name := h.value;
      }
      if e.Some? {
        values := values[e.value.0 := e.value.1];
      }
    }
    assert lines[..|lines|] == lines;
  }

  // ---------------------------------------------------------------- rewriting

  predicate Managed<L>(x: Lexer<L>, updates: Settings, line: L) {
    x.key(line).Some? && x.key(line).value in updates
  }

  function Rewritten<L>(x: Lexer<L>, updates: Settings, line: L): L {
    if !Managed(x, updates, line) then line
    else if updates[x.key(line).value] == "" then x.empty
    else x.write(x.key(line).value, updates[x.key(line).value])
  }

  function RewriteAll<L>(x: Lexer<L>, updates: Settings, lines: seq<L>): (r: seq<L>)
    ensures |r| == |lines| && forall i :: 0 <= i < |lines| ==> r[i] == Rewritten(x, updates, lines[i])
  {
    if lines == [] then []
    else RewriteAll(x, updates, lines[..|lines| - 1]) + [Rewritten(x, updates, lines[|lines| - 1])]
  }

  function Seen<L>(x: Lexer<L>, updates: Settings, lines: seq<L>): set<string> {
    if lines == [] then {}
    else
      var last := lines[|lines| - 1];
      var before := Seen(x, updates, lines[..|lines| - 1]);
      if Managed(x, updates, last) then before + {x.key(last).value} else before
  }

  /** What is added for a key that the base does not have. */
  function Missing<L>(x: Lexer<L>, updates: Settings, seen: set<string>, order: seq<string>): seq<L>
    requires forall k :: k in order ==> k in updates
  {
    if order == [] then []
    else
      var k := order[|order| - 1];
      Missing(x, updates, seen, order[..|order| - 1])
      + (if updates[k] != "" && k !in seen then [x.write(k, updates[k])] else [])
  }

  function Compact<L>(x: Lexer<L>, lines: seq<L>): seq<L> {
    if lines == [] then []
    else
      Compact(x, lines[..|lines| - 1]) + (if x.blank(lines[|lines| - 1]) then [] else [lines[|lines| - 1]])
  }

  function Rendered<L>(x: Lexer<L>, updates: Settings, order: seq<string>, lines: seq<L>): seq<L>
    requires forall k :: k in order ==> k in updates
  {
    Compact(x, RewriteAll(x, updates, lines) + Missing(x, updates, Seen(x, updates, lines), order))
  }

  method Render<L>(x: Lexer<L>, updates: Settings, order: seq<string>, base: seq<L>) returns (r: seq<L>)
    requires forall k :: k in order ==> k in updates
    ensures r == Rendered(x, updates, order, base)
  {
    var lines, seen := RewriteLoop(x, updates, base);
    var more := AppendLoop(x, updates, seen, order);
    r := CompactLoop(x, lines + more);
  }

  method RewriteLoop<L>(x: Lexer<L>, updates: Settings, base: seq<L>) returns (lines: seq<L>, seen: set<string>)
    ensures lines == RewriteAll(x, updates, base) && seen == Seen(x, updates, base)
  {
    lines, seen := base, {};
    for i := 0 to |base|
      invariant |lines| == |base| && forall k :: i <= k < |base| ==> lines[k] == base[k]
      invariant lines[..i] == RewriteAll(x, updates, base[..i]) && seen == Seen(x, updates, base[..i])
    {
      assert base[..i + 1][..i] == base[..i];
      if Managed(x, updates, lines[i]) {
        seen := seen + {x.key(lines[i]).value};
      }
      ghost var done := lines[..i];
      lines := lines[i := Rewritten(x, updates, lines[i])];
      assert lines[..i + 1] == done + [Rewritten(x, updates, base[i])];
    }
    assert base[..|base|] == base && lines[..|lines|] == lines;
  }

  method AppendLoop<L>(x: Lexer<L>, updates: Settings, seen: set<string>, order: seq<string>) returns (lines: seq<L>)
    requires forall k :: k in order ==> k in updates
    ensures lines == Missing(x, updates, seen, order)
  {
    lines := [];
    for i := 0 to |order|
      invariant lines == Missing(x, updates, seen, order[..i])
    {
      assert order[..i + 1][..i] == order[..i];
      if updates[order[i]] != "" && order[i] !in seen {
        lines := lines + [x.write(order[i], updates[order[i]])];
      }
    }
    assert order[..|order|] == order;
  }

  method CompactLoop<L>(x: Lexer<L>, lines: seq<L>) returns (r: seq<L>)
    ensures r == Compact(x, lines)
  {
    r := [];
    for i := 0 to |lines|
      invariant r == Compact(x, lines[..i])
    {
      assert lines[..i + 1][..i] == lines[..i];
      if !x.blank(lines[i]) {
        r := r + [lines[i]];
      }
    }
    assert lines[..|lines|] == lines;
  }

  // ---------------------------------------------------------------- what is read back

  /** The base's settings with the updates made: an empty update removes its key, a key the base does
      not have is added only if it is in the order. */
  function Updated(base: Settings, updates: Settings, order: seq<string>): Settings {
    map k | k in base.Keys + updates.Keys && (k in updates ==> updates[k] != "" && (k in base || k in order))
      :: if k in updates then updates[k] else base[k]
  }

  /** Exactly the wanted settings: the updates that are not empty, and the base's others. */
  function Wanted(base: Settings, updates: Settings): Settings {
    map k | k in base.Keys + updates.Keys && (k in updates ==> updates[k] != "")
      :: if k in updates then updates[k] else base[k]
  }

  predicate NoneDropped(base: Settings, updates: Settings, order: seq<string>) {
    forall k :: k in updates && updates[k] != "" && k !in base ==> k in order
  }

  lemma UpdatedIsWanted(base: Settings, updates: Settings, order: seq<string>)
    ensures Updated(base, updates, order) == Wanted(base, updates) <==> NoneDropped(base, updates, order)
  {
    if !NoneDropped(base, updates, order) {
      var k :| k in updates && updates[k] != "" && k !in base && k !in order;
      assert k in Wanted(base, updates) && k !in Updated(base, updates, order);
    }
  }

  lemma {:induction false} CompactValues<L(!new)>(x: Lexer<L>, updates: Settings, lines: seq<L>)
    requires Lawful(x, updates)
    ensures Values(x, Compact(x, lines)) == Values(x, lines) && Name(x, Compact(x, lines)) == Name(x, lines)
  {
    if lines != [] {
      var init, last := lines[..|lines| - 1], lines[|lines| - 1];
      CompactValues(x, updates, init);
      assert LawfulLine(x, updates.Keys, last);
      assert (Compact(x, init) + [last])[..|Compact(x, init)|] == Compact(x, init);
      assert Compact(x, init) + [] == Compact(x, init);
    }
  }

  lemma UpdatedPut(base: Settings, updates: Settings, k: string, v: string)
    ensures Updated(base[k := v], updates, [])
            == if k !in updates then Updated(base, updates, [])[k := v]
               else if updates[k] == "" then Updated(base, updates, [])
               else Updated(base, updates, [])[k := updates[k]]
  {
  }

  lemma UpdatedOrder(base: Settings, updates: Settings, order: seq<string>, k: string)
    requires k in updates
    ensures Updated(base, updates, order + [k])
            == if updates[k] != "" && k !in base then Updated(base, updates, order)[k := updates[k]]
               else Updated(base, updates, order)
  {
  }

  lemma {:induction false} SeenKeys<L(!new)>(x: Lexer<L>, updates: Settings, lines: seq<L>)
    requires Lawful(x, updates)
    ensures Seen(x, updates, lines) == Values(x, lines).Keys * updates.Keys
  {
    if lines != [] {
      SeenKeys(x, updates, lines[..|lines| - 1]);
      assert LawfulLine(x, updates.Keys, lines[|lines| - 1]);
    }
  }

  lemma {:induction false} RewriteValues<L(!new)>(x: Lexer<L>, updates: Settings, lines: seq<L>)
    requires Lawful(x, updates)
    ensures Values(x, RewriteAll(x, updates, lines)) == Updated(Values(x, lines), updates, [])
    ensures Name(x, RewriteAll(x, updates, lines)) == Name(x, lines)
  {
    if lines != [] {
      var init, last := lines[..|lines| - 1], lines[|lines| - 1];
      RewriteValues(x, updates, init);
      RewrittenLine(x, updates, last);
      assert RewriteAll(x, updates, lines)[..|init|] == RewriteAll(x, updates, init);
      if x.entry(last).Some? {
        UpdatedPut(Values(x, init), updates, x.entry(last).value.0, x.entry(last).value.1);
      }
    }
  }

  /** What a rewritten line means. */
  lemma RewrittenLine<L(!new)>(x: Lexer<L>, updates: Settings, line: L)
    requires Lawful(x, updates)
    ensures x.header(Rewritten(x, updates, line)) == x.header(line)
    ensures x.entry(line).None? ==> x.entry(Rewritten(x, updates, line)).None?
    ensures x.entry(line).Some? ==>
              (var k := x.entry(line).value.0;
               x.entry(Rewritten(x, updates, line))
               == if k !in updates then x.entry(line) else if updates[k] == "" then None else Some((k, updates[k])))
  {
    assert LawfulLine(x, updates.Keys, line) && LawfulLine(x, updates.Keys, x.empty);
    if Managed(x, updates, line) && updates[x.key(line).value] != "" {
      assert LawfulWrite(x, x.key(line).value, updates[x.key(line).value]);
    }
  }

  lemma Joined<L>(a: seq<L>, b: seq<L>, c: seq<L>)
    ensures a + (b + c) == (a + b) + c
  {
  }

  lemma {:induction false} MissingValues<L(!new)>(x: Lexer<L>, updates: Settings, base: Settings, lines: seq<L>,
                                                  order: seq<string>)
    requires Lawful(x, updates) && (forall k :: k in order ==> k in updates)
    requires Values(x, lines) == Updated(base, updates, [])
    ensures var all := lines + Missing(x, updates, base.Keys * updates.Keys, order);
            && Values(x, all) == Updated(base, updates, order)
            && Name(x, all) == Name(x, lines)
  {
    var seen := base.Keys * updates.Keys;
    if order == [] {
      assert lines + [] == lines;
    } else {
      var init, k := order[..|order| - 1], order[|order| - 1];
      assert order == init + [k];
      MissingValues(x, updates, base, lines, init);
      UpdatedOrder(base, updates, init, k);
      var missing := Missing(x, updates, seen, init);
      if updates[k] != "" && k !in seen {
        assert LawfulWrite(x, k, updates[k]);
        WriteValues(x, lines + missing, k, updates[k]);
        Joined(lines, missing, [x.write(k, updates[k])]);
      } else {
        assert missing + [] == missing;
      }
    }
  }

  lemma WriteValues<L>(x: Lexer<L>, lines: seq<L>, k: string, v: string)
    requires LawfulWrite(x, k, v)
    ensures Values(x, lines + [x.write(k, v)]) == Values(x, lines)[k := v]
    ensures Name(x, lines + [x.write(k, v)]) == Name(x, lines)
  {
    assert (lines + [x.write(k, v)])[..|lines|] == lines;
  }

  /** Reading back what was rendered. */
  lemma RenderedValues<L(!new)>(x: Lexer<L>, updates: Settings, order: seq<string>, lines: seq<L>)
    requires Lawful(x, updates) && (forall k :: k in order ==> k in updates)
    ensures Values(x, Rendered(x, updates, order, lines)) == Updated(Values(x, lines), updates, order)
    ensures Name(x, Rendered(x, updates, order, lines)) == Name(x, lines)
  {
    RewriteValues(x, updates, lines);
    SeenKeys(x, updates, lines);
    MissingValues(x, updates, Values(x, lines), RewriteAll(x, updates, lines), order);
    CompactValues(x, updates, RewriteAll(x, updates, lines) + Missing(x, updates, Seen(x, updates, lines), order));
  }

  // ---------------------------------------------------------------- the other lines

  /** The lines that are neither managed nor blank: headers, comments and other settings. */
  function Others<L>(x: Lexer<L>, updates: Settings, lines: seq<L>): seq<L> {
    if lines == [] then []
    else
      var last := lines[|lines| - 1];
      Others(x, updates, lines[..|lines| - 1]) + (if Managed(x, updates, last) || x.blank(last) then [] else [last])
  }

  lemma OthersSnoc<L>(x: Lexer<L>, updates: Settings, lines: seq<L>, last: L)
    ensures Others(x, updates, lines + [last])
            == Others(x, updates, lines) + (if Managed(x, updates, last) || x.blank(last) then [] else [last])
  {
    assert (lines + [last])[..|lines|] == lines;
  }

  lemma {:induction false} OthersCompact<L>(x: Lexer<L>, updates: Settings, lines: seq<L>)
    ensures Others(x, updates, Compact(x, lines)) == Others(x, updates, lines)
  {
    if lines != [] {
      var init, last := lines[..|lines| - 1], lines[|lines| - 1];
      OthersCompact(x, updates, init);
      OthersSnoc(x, updates, Compact(x, init), last);
      assert Compact(x, init) + [] == Compact(x, init);
    }
  }

  lemma {:induction false} OthersRewritten<L(!new)>(x: Lexer<L>, updates: Settings, lines: seq<L>)
    requires Lawful(x, updates)
    ensures Others(x, updates, RewriteAll(x, updates, lines)) == Others(x, updates, lines)
  {
    if lines != [] {
      var init, last := lines[..|lines| - 1], lines[|lines| - 1];
      OthersRewritten(x, updates, init);
      OthersSnoc(x, updates, RewriteAll(x, updates, init), Rewritten(x, updates, last));
      if Managed(x, updates, last) && updates[x.key(last).value] != "" {
        assert LawfulWrite(x, x.key(last).value, updates[x.key(last).value]);
      }
    }
  }

  lemma {:induction false} OthersMissing<L(!new)>(x: Lexer<L>, updates: Settings, lines: seq<L>, seen: set<string>,
                                                  order: seq<string>)
    requires Lawful(x, updates) && (forall k :: k in order ==> k in updates)
    ensures Others(x, updates, lines + Missing(x, updates, seen, order)) == Others(x, updates, lines)
  {
    if order == [] {
      assert lines + [] == lines;
    } else {
      var init, k := order[..|order| - 1], order[|order| - 1];
      var missing := Missing(x, updates, seen, init);
      OthersMissing(x, updates, lines, seen, init);
      if updates[k] != "" && k !in seen {
        assert LawfulWrite(x, k, updates[k]);
        OthersSnoc(x, updates, lines + missing, x.write(k, updates[k]));
        Joined(lines, missing, [x.write(k, updates[k])]);
      } else {
        assert missing + [] == missing;
      }
    }
  }

  /** Rendering keeps every line that it does not manage, in order. */
  lemma OthersStay<L(!new)>(x: Lexer<L>, updates: Settings, order: seq<string>, lines: seq<L>)
    requires Lawful(x, updates) && (forall k :: k in order ==> k in updates)
    ensures Others(x, updates, Rendered(x, updates, order, lines)) == Others(x, updates, lines)
  {
    var rewritten := RewriteAll(x, updates, lines);
    OthersCompact(x, updates, rewritten + Missing(x, updates, Seen(x, updates, lines), order));
    OthersMissing(x, updates, rewritten, Seen(x, updates, lines), order);
    OthersRewritten(x, updates, lines);
  }

  // ---------------------------------------------------------------- rendering again

  lemma {:induction false} CompactKeeps<L>(x: Lexer<L>, lines: seq<L>, line: L)
    requires line in Compact(x, lines)
    ensures line in lines && !x.blank(line)
  {
    var init, last := lines[..|lines| - 1], lines[|lines| - 1];
    if line in Compact(x, init) {
      CompactKeeps(x, init, line);
    } else {
      assert line == last && !x.blank(last);
    }
  }

  lemma {:induction false} CompactIdle<L>(x: Lexer<L>, lines: seq<L>)
    requires forall i :: 0 <= i < |lines| ==> !x.blank(lines[i])
    ensures Compact(x, lines) == lines
  {
    if lines != [] {
      CompactIdle(x, lines[..|lines| - 1]);
    }
  }

  lemma {:induction false} RewriteIdle<L>(x: Lexer<L>, updates: Settings, lines: seq<L>)
    requires forall line :: line in lines ==> Rewritten(x, updates, line) == line
    ensures RewriteAll(x, updates, lines) == lines
  {
    if lines != [] {
      RewriteIdle(x, updates, lines[..|lines| - 1]);
    }
  }

  lemma {:induction false} MissingIdle<L>(x: Lexer<L>, updates: Settings, seen: set<string>, order: seq<string>)
    requires forall k :: k in order ==> k in updates && (updates[k] != "" ==> k in seen)
    ensures Missing(x, updates, seen, order) == []
  {
    if order != [] {
      MissingIdle(x, updates, seen, order[..|order| - 1]);
    }
  }

  lemma {:induction false} MissingIdleLines<L(!new)>(x: Lexer<L>, updates: Settings, seen: set<string>,
                                                     order: seq<string>)
    requires Lawful(x, updates) && forall k :: k in order ==> k in updates
    ensures forall line :: line in Missing(x, updates, seen, order) ==> Rewritten(x, updates, line) == line
  {
    if order != [] {
      MissingIdleLines(x, updates, seen, order[..|order| - 1]);
      var k := order[|order| - 1];
      if updates[k] != "" {
        assert LawfulWrite(x, k, updates[k]);
      }
    }
  }

  lemma RewrittenTwice<L(!new)>(x: Lexer<L>, updates: Settings, line: L)
    requires Lawful(x, updates) && !x.blank(Rewritten(x, updates, line))
    ensures Rewritten(x, updates, Rewritten(x, updates, line)) == Rewritten(x, updates, line)
  {
    if Managed(x, updates, line) {
      assert LawfulWrite(x, x.key(line).value, updates[x.key(line).value]);
    }
  }

  /** Lines that rewriting leaves alone, none of them blank, with nothing to add. */
  lemma RenderedIdle<L>(x: Lexer<L>, updates: Settings, order: seq<string>, lines: seq<L>)
    requires forall k :: k in order ==> k in updates
    requires forall line :: line in lines ==> Rewritten(x, updates, line) == line && !x.blank(line)
    requires Missing(x, updates, Seen(x, updates, lines), order) == []
    ensures Rendered(x, updates, order, lines) == lines
  {
    RewriteIdle(x, updates, lines);
    assert lines + [] == lines;
    CompactIdle(x, lines);
  }

  /** Rendering what was rendered changes nothing. */
  lemma RenderedTwice<L(!new)>(x: Lexer<L>, updates: Settings, order: seq<string>, lines: seq<L>)
    requires Lawful(x, updates) && (forall k :: k in order ==> k in updates)
    ensures var once := Rendered(x, updates, order, lines); Rendered(x, updates, order, once) == once
  {
    var once := Rendered(x, updates, order, lines);
    var seen := Seen(x, updates, lines);
    MissingIdleLines(x, updates, seen, order);
    forall line | line in once ensures Rewritten(x, updates, line) == line && !x.blank(line) {
      CompactKeeps(x, RewriteAll(x, updates, lines) + Missing(x, updates, seen, order), line);
      if line !in Missing(x, updates, seen, order) {
        var i :| 0 <= i < |lines| && line == Rewritten(x, updates, lines[i]);
        RewrittenTwice(x, updates, lines[i]);
      }
    }
    RenderedValues(x, updates, order, lines);
    SeenKeys(x, updates, once);
    MissingIdle(x, updates, Seen(x, updates, once), order);
    RenderedIdle(x, updates, order, once);
  }

  lemma {:induction false} CompactSkips<L>(x: Lexer<L>, line: L, lines: seq<L>)
    requires x.blank(line)
    ensures Compact(x, [line] + lines) == Compact(x, lines)
  {
    var all := [line] + lines;
    if lines == [] {
      assert all == [line] && all[..0] == [];
    } else {
      assert all[..|all| - 1] == [line] + lines[..|lines| - 1];
      CompactSkips(x, line, lines[..|lines| - 1]);
    }
  }

  /** One blank line renders like no line. */
  lemma RenderedBlank<L>(x: Lexer<L>, updates: Settings, order: seq<string>, line: L)
    requires x.blank(line) && x.key(line).None? && (forall k :: k in order ==> k in updates)
    ensures Rendered(x, updates, order, [line]) == Rendered(x, updates, order, [])
  {
    assert RewriteAll(x, updates, [line]) == [line];
    assert [line][..0] == [];
    var missing := Missing(x, updates, {}, order);
    CompactSkips(x, line, missing);
    assert [] + missing == missing;
  }
}
