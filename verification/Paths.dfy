/** Slash paths: lexical cleaning, joining, and what is below what. */
module Paths {
  import opened Text

  const SLASH := '/'

  predicate IsAbs(path: string) {
    path != [] && path[0] == SLASH
  }

  /** One more segment: empty ones and `.` are dropped, `..` takes the last one away if it can. */
  function Push(stack: seq<string>, segment: string, rooted: bool): seq<string> {
    if segment == "" || segment == "." then stack
    else if segment != ".." then stack + [segment]
    else if stack != [] && stack[|stack| - 1] != ".." then stack[..|stack| - 1]
    else if rooted then stack
    else stack + [".."]
  }

  function Stack(segments: seq<string>, rooted: bool): seq<string> {
    if segments == [] then []
    else Push(Stack(segments[..|segments| - 1], rooted), segments[|segments| - 1], rooted)
  }

  /** What is left of a path's segments. */
  function Segments(path: string): seq<string> {
    Stack(Split(path, SLASH), IsAbs(path))
  }

  /** path.Clean */
  function Clean(path: string): string {
    if IsAbs(path) then [SLASH] + Join(Segments(path), SLASH)
    else if Segments(path) == [] then "."
    else Join(Segments(path), SLASH)
  }

  /** A segment that cleaning leaves alone. */
  predicate Ordinary(segment: string) {
    segment != "" && segment != "." && segment != ".." && SLASH !in segment
  }

  predicate AllOrdinary(segments: seq<string>) {
    forall i :: 0 <= i < |segments| ==> Ordinary(segments[i])
  }

  // ---------------------------------------------------------------- the stack

  /** Segments are real ones; climbing comes first, and not from the root. */
  predicate Shaped(stack: seq<string>, rooted: bool) {
    && (forall i :: 0 <= i < |stack| ==> stack[i] != "" && stack[i] != "." && SLASH !in stack[i])
    && (forall i, j :: 0 <= j < i < |stack| && stack[i] == ".." ==> stack[j] == "..")
    && (rooted ==> forall i :: 0 <= i < |stack| ==> stack[i] != "..")
  }

  lemma {:induction false} StackShaped(segments: seq<string>, rooted: bool)
    requires forall i :: 0 <= i < |segments| ==> SLASH !in segments[i]
    ensures Shaped(Stack(segments, rooted), rooted)
  {
    if segments != [] {
      StackShaped(segments[..|segments| - 1], rooted);
    }
  }

  lemma SegmentsShaped(path: string)
    ensures Shaped(Segments(path), IsAbs(path))
  {
    var segments := Split(path, SLASH);
    assert forall i :: 0 <= i < |segments| ==> segments[i] in segments;
    StackShaped(segments, IsAbs(path));
  }

  /** Ordinary segments are piled up as they come. */
  lemma {:induction false} StackOrdinary(base: seq<string>, more: seq<string>, rooted: bool)
    requires AllOrdinary(more)
    ensures Stack(base + more, rooted) == Stack(base, rooted) + more
  {
    if more == [] {
      assert base + more == base;
    } else {
      var init, last := more[..|more| - 1], more[|more| - 1];
      StackOrdinary(base, init, rooted);
      assert (base + more)[..|base + more| - 1] == base + init;
      assert more == init + [last];
    }
  }

  /** A name followed by `..` cancels, the root cannot be left, and a relative path can climb. */
  lemma ClimbCancels(segments: seq<string>, name: string, rooted: bool)
    requires Ordinary(name)
    ensures Stack(segments + [name, ".."], rooted) == Stack(segments, rooted)
    ensures Stack([".."], true) == [] && Stack([".."], false) == [".."]
  {
    var all := segments + [name, ".."];
    assert all[..|all| - 1] == segments + [name] && (segments + [name])[..|segments|] == segments;
    assert [".."][..0] == [];
  }

  // ---------------------------------------------------------------- relative paths

  lemma NotAbs(path: string)
    requires Split(path, SLASH)[0] != []
    ensures !IsAbs(path)
  {
  }

  lemma OrdinaryIsClean(path: string)
    requires AllOrdinary(Split(path, SLASH))
    ensures !IsAbs(path) && Segments(path) == Split(path, SLASH) && Clean(path) == path && path != ""
  {
    var segments := Split(path, SLASH);
    assert Ordinary(segments[0]);
    NotAbs(path);
    StackOrdinary([], segments, false);
    assert [] + segments == segments && Stack([], false) == [];
    JoinSplit(path, SLASH);
  }

  /** A clean relative path that does not begin by climbing has ordinary segments, `.` aside. */
  lemma CleanIsOrdinary(path: string)
    requires path != "" && !IsAbs(path) && Clean(path) == path && path != "." && path != ".." && !("../" <= path)
    ensures AllOrdinary(Split(path, SLASH))
  {
    var stack := Segments(path);
    SegmentsShaped(path);
    SplitJoin(stack, SLASH);
    assert Split(path, SLASH) == stack;
    if stack[0] == ".." {
      FirstSegment(path);
    }
  }

  lemma FirstSegment(path: string)
    ensures var first := Split(path, SLASH)[0]; path == first || first + [SLASH] <= path
  {
    var segments := Split(path, SLASH);
    JoinSplit(path, SLASH);
    if |segments| > 1 {
      assert path == segments[0] + [SLASH] + Join(segments[1..], SLASH);
    }
  }

  // ---------------------------------------------------------------- joining

  /** filepath.Join of a directory and a relative path. */
  function JoinPath(dir: string, path: string): string {
    Clean(dir + [SLASH] + path)
  }

  /** A relative path with ordinary segments, joined to any absolute directory, stays below it: its segments
      come after the directory's. */
  lemma JoinedSegments(dir: string, path: string)
    requires IsAbs(dir) && AllOrdinary(Split(path, SLASH))
    ensures IsAbs(dir + [SLASH] + path) && Segments(dir + [SLASH] + path) == Segments(dir) + Split(path, SLASH)
  {
    SplitBetween(dir, path, SLASH);
    StackOrdinary(Split(dir, SLASH), Split(path, SLASH), true);
  }

  lemma EmptySegments()
    ensures Split([], SLASH) == [""] && Stack([""], true) == []
    ensures Split([SLASH], SLASH) == ["", ""] && Stack(["", ""], true) == []
  {
    assert [""][..0] == [] && ["", ""][..1] == [""];
  }

  lemma CleanSegments(path: string)
    requires IsAbs(path)
    ensures IsAbs(Clean(path)) && Segments(Clean(path)) == Segments(path)
  {
    var stack := Segments(path);
    SegmentsShaped(path);
    var joined := Join(stack, SLASH);
    if stack == [] {
      assert Clean(path) == [SLASH];
      EmptySegments();
    } else {
      SplitJoin(stack, SLASH);
      assert [SLASH] + joined == [] + [SLASH] + joined;
      SplitBetween([], joined, SLASH);
      EmptySegments();
      StackOrdinary([""], stack, true);
    }
  }

  /** Absolute clean paths are told apart by their segments. */
  lemma CleanDetermined(a: string, b: string)
    requires IsAbs(a) && IsAbs(b) && Clean(a) == a && Clean(b) == b && Segments(a) == Segments(b)
    ensures a == b
  {
  }

  /** Without climbing, segments are only added. */
  lemma {:induction false} StackGrows(base: seq<string>, more: seq<string>, rooted: bool)
    requires forall i :: 0 <= i < |more| ==> more[i] != ".."
    ensures Stack(base, rooted) <= Stack(base + more, rooted)
  {
    if more == [] {
      assert base + more == base;
    } else {
      StackGrows(base, more[..|more| - 1], rooted);
      assert (base + more)[..|base + more| - 1] == base + more[..|more| - 1];
    }
  }
}
