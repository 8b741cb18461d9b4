/** The string operations of the Go standard library that the configuration editors use. */
module Text {

  /** unicode.IsSpace */
  predicate IsSpace(c: char) {
    c == ' ' || '\t' <= c <= '\r' || c == '\U{85}' || c == '\U{A0}' || c == '\U{1680}' || '\U{2000}' <= c <= '\U{200A}'
    || c == '\U{2028}' || c == '\U{2029}' || c == '\U{202F}' || c == '\U{205F}' || c == '\U{3000}'
  }

  /** strings.Split with a one-character separator. */
  function Split(s: string, sep: char): (r: seq<string>)
    ensures |r| > 0
    ensures forall line :: line in r ==> sep !in line
  {
    if s == [] then [[]]
    else
      var rest := Split(s[1..], sep);
      if s[0] == sep then [[]] + rest else [[s[0]] + rest[0]] + rest[1..]
  }

  /** strings.Join with a one-character separator. */
  function Join(lines: seq<string>, sep: char): string {
    if lines == [] then []
    else if |lines| == 1 then lines[0]
    else lines[0] + [sep] + Join(lines[1..], sep)
  }

  lemma {:induction false} SplitFirst(line: string, rest: string, sep: char)
    requires sep !in line
    ensures Split(line + [sep] + rest, sep) == [line] + Split(rest, sep)
  {
    var s := line + [sep] + rest;
    if line == [] {
      assert s == [sep] + rest && s[1..] == rest;
    } else {
      assert s[1..] == line[1..] + [sep] + rest && s[0] == line[0] != sep;
      SplitFirst(line[1..], rest, sep);
      assert [line[0]] + line[1..] == line;
    }
  }

  lemma {:induction false} SplitNone(line: string, sep: char)
    requires sep !in line
    ensures Split(line, sep) == [line]
  {
    if line != [] {
      SplitNone(line[1..], sep);
      assert [line[0]] + line[1..] == line;
    }
  }

  lemma {:induction false} SplitJoin(lines: seq<string>, sep: char)
    requires lines != [] && forall line :: line in lines ==> sep !in line
    ensures Split(Join(lines, sep), sep) == lines
  {
    if |lines| == 1 {
      SplitNone(lines[0], sep);
    } else {
      SplitJoin(lines[1..], sep);
      SplitFirst(lines[0], Join(lines[1..], sep), sep);
    }
  }

  lemma {:induction false} JoinSplit(s: string, sep: char)
    ensures Join(Split(s, sep), sep) == s
  {
    if s != [] {
      JoinSplit(s[1..], sep);
      var rest := Split(s[1..], sep);
      if s[0] == sep {
        assert ([[]] + rest)[1..] == rest;
      } else {
        assert ([[s[0]] + rest[0]] + rest[1..])[1..] == rest[1..];
      }
    }
  }

  /** Splitting two texts with a separator between them. */
  lemma {:induction false} SplitBetween(a: string, b: string, sep: char)
    ensures Split(a + [sep] + b, sep) == Split(a, sep) + Split(b, sep)
  {
    if a == [] {
      assert a + [sep] + b == [sep] + b && ([sep] + b)[1..] == b;
    } else {
      assert (a + [sep] + b)[1..] == a[1..] + [sep] + b;
      SplitBetween(a[1..], b, sep);
    }
  }

  lemma {:induction false} SplitSnoc(s: string, sep: char)
    ensures Split(s + [sep], sep) == Split(s, sep) + [[]]
  {
    if s != [] {
      assert (s + [sep])[1..] == s[1..] + [sep];
      SplitSnoc(s[1..], sep);
    }
  }

  function TrimLeft(s: string): string {
    if s != [] && IsSpace(s[0]) then TrimLeft(s[1..]) else s
  }

  function TrimRight(s: string): string {
    if s != [] && IsSpace(s[|s| - 1]) then TrimRight(s[..|s| - 1]) else s
  }

  function TrimSpace(s: string): string {
    TrimRight(TrimLeft(s))
  }

  /** Text that trimming leaves alone. */
  predicate Trimmed(s: string) {
    s == [] || (!IsSpace(s[0]) && !IsSpace(s[|s| - 1]))
  }

  predicate AllSpace(s: string) {
    forall i :: 0 <= i < |s| ==> IsSpace(s[i])
  }

  lemma {:induction false} TrimLeftSkips(blank: string, s: string)
    requires AllSpace(blank)
    ensures TrimLeft(blank + s) == TrimLeft(s)
  {
    if blank == [] {
      assert blank + s == s;
    } else {
      assert (blank + s)[1..] == blank[1..] + s;
      TrimLeftSkips(blank[1..], s);
    }
  }

  lemma {:induction false} TrimLeftKeeps(s: string, more: string)
    requires TrimLeft(s) != []
    ensures TrimLeft(s + more) == TrimLeft(s) + more
  {
    if IsSpace(s[0]) {
      assert (s + more)[1..] == s[1..] + more;
      TrimLeftKeeps(s[1..], more);
    }
  }

  lemma {:induction false} TrimLeftBlank(s: string)
    requires TrimLeft(s) == []
    ensures AllSpace(s)
  {
    if s != [] {
      TrimLeftBlank(s[1..]);
      assert s == [s[0]] + s[1..];
    }
  }

  /** Leading blanks go, trimmed text stays. */
  lemma TrimSpaceSkips(blank: string, s: string)
    requires AllSpace(blank) && Trimmed(s)
    ensures TrimSpace(blank + s) == s
  {
    TrimLeftSkips(blank, s);
  }

  lemma {:induction false} TrimRightTrimmed(s: string)
    ensures TrimRight(s) <= s && (TrimRight(s) == [] || !IsSpace(TrimRight(s)[|TrimRight(s)| - 1]))
  {
    if s != [] && IsSpace(s[|s| - 1]) {
      TrimRightTrimmed(s[..|s| - 1]);
    }
  }

  lemma {:induction false} TrimLeftTrimmed(s: string)
    ensures TrimLeft(s) == [] || !IsSpace(TrimLeft(s)[0])
  {
    if s != [] && IsSpace(s[0]) {
      TrimLeftTrimmed(s[1..]);
    }
  }

  lemma TrimSpaceTrimmed(s: string)
    ensures Trimmed(TrimSpace(s))
  {
    TrimLeftTrimmed(s);
    TrimRightTrimmed(TrimLeft(s));
  }

  predicate HasPrefix(s: string, prefix: string) {
    prefix <= s
  }

  /** The text before the first occurrence of a character, all of it if there is none. */
  function UpTo(s: string, c: char): (r: string)
    ensures c !in r && r <= s
    ensures c !in s ==> r == s
    ensures c in s ==> |r| < |s| && s[|r|] == c
  {
    if s == [] || s[0] == c then [] else [s[0]] + UpTo(s[1..], c)
  }

  lemma {:induction false} UpToFirst(key: string, rest: string, c: char)
    requires c !in key
    ensures UpTo(key + [c] + rest, c) == key
  {
    if key == [] {
      assert ([] + [c] + rest)[0] == c;
    } else {
      assert (key + [c] + rest)[1..] == key[1..] + [c] + rest;
      UpToFirst(key[1..], rest, c);
    }
  }

  function Count(s: string, c: char): (n: nat)
    ensures n == 0 <==> c !in s
  {
    if s == [] then 0 else (if s[0] == c then 1 else 0) + Count(s[1..], c)
  }

  /** Every occurrence splits once. */
  lemma {:induction false} CountIsSplit(s: string, c: char)
    ensures |Split(s, c)| == Count(s, c) + 1
  {
    if s != [] {
      CountIsSplit(s[1..], c);
    }
  }

  /** A piece of a split text occurs in it. */
  lemma {:induction false} PieceOccurs(s: string, sep: char, piece: string) returns (i: nat)
    requires piece in Split(s, sep)
    ensures i + |piece| <= |s| && s[i..i + |piece|] == piece
  {
    var pieces := Split(s, sep);
    if piece == pieces[0] {
      i := 0;
      FirstPiece(s, sep);
    } else {
      assert s != [];
      var k := PieceOccurs(s[1..], sep, piece);
      i := k + 1;
      assert s[i..i + |piece|] == s[1..][k..k + |piece|];
    }
  }

  lemma {:induction false} FirstPiece(s: string, sep: char)
    ensures Split(s, sep)[0] <= s
  {
    if s != [] {
      FirstPiece(s[1..], sep);
    }
  }
}
