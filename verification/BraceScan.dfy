/**
  Searching lines by brace depth.  `delta` is what a line adds to the depth; `sets` and `opens` mark
  the lines looked for.  Nothing here depends on what a line is.
*/
module BraceScan {
  import opened Options

  /** The first line, from `from` on, that is marked at the target depth; `gap` is the target depth
      less the depth before line `from`. */
  function Find<L>(lines: seq<L>, delta: L -> int, sets: L -> bool, gap: int, from: nat): (r: Option<nat>)
    requires from <= |lines|
    ensures r.Some? ==> from <= r.value < |lines| && sets(lines[r.value])
    decreases |lines| - from
  {
    if from == |lines| then None
    else if gap == 0 && sets(lines[from]) then Some(from)
    else Find(lines, delta, sets, gap - delta(lines[from]), from + 1)
  }

  /** The brace depth before line `i`, counted from line `from`. */
  function Depth<L>(lines: seq<L>, delta: L -> int, from: nat, i: nat): int
    requires from <= i <= |lines|
    decreases i - from
  {
    if from == i then 0 else delta(lines[from]) + Depth(lines, delta, from + 1, i)
  }

  predicate Hit<L>(lines: seq<L>, delta: L -> int, sets: L -> bool, gap: int, from: nat, i: nat) {
    from <= i < |lines| && Depth(lines, delta, from, i) == gap && sets(lines[i])
  }

  predicate NoHitBefore<L>(lines: seq<L>, delta: L -> int, sets: L -> bool, gap: int, from: nat, i: nat) {
    forall k: nat :: k < i ==> !Hit(lines, delta, sets, gap, from, k)
  }

  /** The line found is the first at its depth, and one is found if there is one. */
  lemma {:induction false} FindIsFirst<L>(lines: seq<L>, delta: L -> int, sets: L -> bool, gap: int, from: nat, i: nat)
    requires from <= i < |lines|
    ensures Find(lines, delta, sets, gap, from) == Some(i)
            <==> Hit(lines, delta, sets, gap, from, i) && NoHitBefore(lines, delta, sets, gap, from, i)
    decreases i - from
  {
    assert Hit(lines, delta, sets, gap, from, from) <==> gap == 0 && sets(lines[from]);
    if from < i && !Hit(lines, delta, sets, gap, from, from) {
      var next, start := gap - delta(lines[from]), from + 1;
      FindIsFirst(lines, delta, sets, next, start, i);
      if NoHitBefore(lines, delta, sets, gap, from, i) {
        forall k: nat | k < i ensures !Hit(lines, delta, sets, next, start, k) {
          assert !Hit(lines, delta, sets, gap, from, k);
        }
      } else {
        var k: nat :| k < i && Hit(lines, delta, sets, gap, from, k);
        assert Hit(lines, delta, sets, next, start, k);
      }
    }
  }

  method FindAtDepth<L>(lines: seq<L>, delta: L -> int, sets: L -> bool, target: int) returns (r: Option<nat>)
    ensures r == Find(lines, delta, sets, target, 0)
  {
    var depth := 0;
    for i := 0 to |lines|
      invariant Find(lines, delta, sets, target, 0) == Find(lines, delta, sets, target - depth, i)
    {
      if depth == target && sets(lines[i]) {
        return Some(i);
      }
      depth := depth + delta(lines[i]);
    }
    return None;
  }

  // ---------------------------------------------------------------- blocks

  /** The first line, from `from` on, that closes more than is open; `inner` is how deep inside the
      block that line starts. */
  function Closer<L>(lines: seq<L>, delta: L -> int, from: nat, inner: int): (r: Option<nat>)
    requires from <= |lines|
    ensures r.Some? ==> from <= r.value < |lines|
    decreases |lines| - from
  {
    if from == |lines| then None
    else
      var next := inner + delta(lines[from]);
      if next < 0 then Some(from) else Closer(lines, delta, from + 1, next)
  }

  /** The first opening line, from `from` on, that is closed again, with the line closing it. */
  function Block<L>(lines: seq<L>, delta: L -> int, opens: L -> bool, from: nat): (r: Option<(nat, nat)>)
    requires from <= |lines|
    ensures r.Some? ==> from <= r.value.0 < r.value.1 < |lines| && opens(lines[r.value.0])
    decreases |lines| - from
  {
    if from == |lines| then None
    else
      var closer := if opens(lines[from]) then Closer(lines, delta, from + 1, 0) else None;
      if closer.Some? then Some((from, closer.value)) else Block(lines, delta, opens, from + 1)
  }

  /** Below the depth inside after line `k`. */
  predicate Below<L>(lines: seq<L>, delta: L -> int, from: nat, inner: int, k: nat) {
    from <= k < |lines| && inner + Depth(lines, delta, from, k + 1) < 0
  }

  predicate NotBelowBefore<L>(lines: seq<L>, delta: L -> int, from: nat, inner: int, end: nat) {
    forall k: nat :: k < end ==> !Below(lines, delta, from, inner, k)
  }

  lemma BelowNext<L>(lines: seq<L>, delta: L -> int, from: nat, inner: int, k: nat)
    requires from < k < |lines|
    ensures Below(lines, delta, from, inner, k) == Below(lines, delta, from + 1, inner + delta(lines[from]), k)
  {
    assert Depth(lines, delta, from, k + 1) == delta(lines[from]) + Depth(lines, delta, from + 1, k + 1);
  }

  /** The closing line is the first one after which the depth is below the depth inside. */
  lemma {:induction false} CloserIsFirst<L>(lines: seq<L>, delta: L -> int, from: nat, inner: int, end: nat)
    requires from <= end < |lines|
    ensures Closer(lines, delta, from, inner) == Some(end)
            <==> Below(lines, delta, from, inner, end) && NotBelowBefore(lines, delta, from, inner, end)
    decreases end - from
  {
    var next, start := inner + delta(lines[from]), from + 1;
    assert Depth(lines, delta, from, from + 1) == delta(lines[from]) + Depth(lines, delta, from + 1, from + 1);
    assert Below(lines, delta, from, inner, from) <==> next < 0;
    if from < end && next >= 0 {
      CloserIsFirst(lines, delta, start, next, end);
      BelowNext(lines, delta, from, inner, end);
      if NotBelowBefore(lines, delta, from, inner, end) {
        forall k: nat | k < end ensures !Below(lines, delta, start, next, k) {
          assert !Below(lines, delta, from, inner, k);
          if from < k {
            BelowNext(lines, delta, from, inner, k);
          }
        }
      } else {
        var k: nat :| k < end && Below(lines, delta, from, inner, k);
        BelowNext(lines, delta, from, inner, k);
      }
    }
  }

  /** Line `k` opens a block that is closed again. */
  predicate Begins<L>(lines: seq<L>, delta: L -> int, opens: L -> bool, k: nat) {
    k < |lines| && opens(lines[k]) && Closer(lines, delta, k + 1, 0).Some?
  }

  /** The block found is the first one that is closed again. */
  lemma {:induction false} BlockIsFirst<L>(lines: seq<L>, delta: L -> int, opens: L -> bool, from: nat, start: nat,
                                           end: nat)
    requires from <= start < |lines|
    ensures Block(lines, delta, opens, from) == Some((start, end))
            <==> (Begins(lines, delta, opens, start) && Closer(lines, delta, start + 1, 0) == Some(end)
                  && forall k: nat :: from <= k < start ==> !Begins(lines, delta, opens, k))
    decreases start - from
  {
    if from < start && !Begins(lines, delta, opens, from) {
      BlockIsFirst(lines, delta, opens, from + 1, start, end);
    }
  }

  method FindCloser<L>(lines: seq<L>, delta: L -> int, start: nat, blockDepth: int) returns (r: Option<nat>)
    requires start < |lines|
    ensures r == Closer(lines, delta, start + 1, 0)
  {
    var current := blockDepth;
    for end := start + 1 to |lines|
      invariant Closer(lines, delta, start + 1, 0) == Closer(lines, delta, end, current - blockDepth)
    {
      current := current + delta(lines[end]);
      if current < blockDepth {
        return Some(end);
      }
    }
    return None;
  }

  method FindBlock<L>(lines: seq<L>, delta: L -> int, opens: L -> bool) returns (r: Option<(nat, nat)>)
    ensures r == Block(lines, delta, opens, 0)
  {
    var depth := 0;
    for i := 0 to |lines|
      invariant Block(lines, delta, opens, 0) == Block(lines, delta, opens, i)
    {
      if opens(lines[i]) {
        var closer := FindCloser(lines, delta, i, depth + delta(lines[i]));
        if closer.Some? {
          return Some((i, closer.value));
        }
      }
      depth := depth + delta(lines[i]);
    }
    return None;
  }

  /** The first marked line of a range, at whatever depth. */
  function First<L>(lines: seq<L>, sets: L -> bool, from: nat, end: nat): (r: Option<nat>)
    requires from <= end <= |lines|
    ensures r.Some? ==> from <= r.value < end && sets(lines[r.value])
    ensures r.Some? ==> forall k :: from <= k < r.value ==> !sets(lines[k])
    ensures r.None? ==> forall k :: from <= k < end ==> !sets(lines[k])
    decreases end - from
  {
    if from == end then None
    else if sets(lines[from]) then Some(from)
    else First(lines, sets, from + 1, end)
  }

  // ---------------------------------------------------------------- editing

  function Inserted<L>(lines: seq<L>, at: nat, line: L): seq<L>
    requires at <= |lines|
  {
    lines[..at] + [line] + lines[at..]
  }

  /** Where a line is after an insertion. */
  function Moved(at: nat, k: Option<nat>): Option<nat> {
    if k.Some? && k.value >= at then Some(k.value + 1) else k
  }

  /** Marking the found line again does not move it. */
  lemma {:induction false} FindReplaced<L>(lines: seq<L>, delta: L -> int, sets: L -> bool, gap: int, from: nat,
                                           line: L)
    requires from <= |lines| && Find(lines, delta, sets, gap, from).Some? && sets(line)
    ensures var at := Find(lines, delta, sets, gap, from);
            Find(lines[at.value := line], delta, sets, gap, from) == at
    decreases |lines| - from
  {
    if Find(lines, delta, sets, gap, from) != Some(from) {
      FindReplaced(lines, delta, sets, gap - delta(lines[from]), from + 1, line);
    }
  }

  /** A line that was not found before and is not found after can change. */
  lemma {:induction false} FindUnaffected<L>(lines: seq<L>, delta: L -> int, sets: L -> bool, gap: int, from: nat,
                                             at: nat, line: L)
    requires from <= |lines| && at < |lines| && delta(line) == delta(lines[at])
    requires !(from <= at && Depth(lines, delta, from, at) == gap) || (!sets(line) && !sets(lines[at]))
    ensures Find(lines[at := line], delta, sets, gap, from) == Find(lines, delta, sets, gap, from)
    decreases |lines| - from
  {
    if from < |lines| {
      FindUnaffected(lines, delta, sets, gap - delta(lines[from]), from + 1, at, line);
    }
  }

  lemma {:induction false} DepthReplaced<L>(lines: seq<L>, delta: L -> int, from: nat, at: nat, line: L, k: nat)
    requires from <= k <= |lines| && at < |lines|
    ensures Depth(lines[at := line], delta, from, k)
            == Depth(lines, delta, from, k) + if from <= at < k then delta(line) - delta(lines[at]) else 0
    decreases k - from
  {
    if from < k {
      DepthReplaced(lines, delta, from + 1, at, line, k);
    }
  }

  /** Whatever braces the two lines hold: the lines up to the replaced one are found as before, those after
      it at a depth shifted by the difference. */
  lemma HitReplaced<L>(lines: seq<L>, delta: L -> int, sets: L -> bool, gap: int, at: nat, line: L, k: nat)
    requires at < |lines| && k < |lines| && k != at
    ensures Hit(lines[at := line], delta, sets, gap, 0, k)
            <==> Hit(lines, delta, sets, if k < at then gap else gap + delta(lines[at]) - delta(line), 0, k)
  {
    DepthReplaced(lines, delta, 0, at, line, k);
  }

  /** A hit once everything after line `at` is shifted. */
  predicate ShiftedHit<L>(lines: seq<L>, delta: L -> int, sets: L -> bool, gap: int, at: nat, shift: int, k: nat) {
    k != at && Hit(lines, delta, sets, if k < at then gap else gap + shift, 0, k)
  }

  predicate NoShiftedHitBefore<L>(lines: seq<L>, delta: L -> int, sets: L -> bool, gap: int, at: nat, shift: int,
                                  k: nat) {
    forall j: nat :: j < k ==> !ShiftedHit(lines, delta, sets, gap, at, shift, j)
  }

  /** Replacing a line by one that is not looked for, whatever braces the two hold: the line found is the
      first shifted hit. */
  lemma FindShiftedIff<L>(lines: seq<L>, delta: L -> int, sets: L -> bool, gap: int, at: nat, line: L, k: nat)
    requires at < |lines| && k < |lines| && !sets(line)
    ensures var shift := delta(lines[at]) - delta(line);
            Find(lines[at := line], delta, sets, gap, 0) == Some(k)
            <==> (ShiftedHit(lines, delta, sets, gap, at, shift, k)
                  && NoShiftedHitBefore(lines, delta, sets, gap, at, shift, k))
  {
    var edited, shift := lines[at := line], delta(lines[at]) - delta(line);
    FindIsFirst(edited, delta, sets, gap, 0, k);
    forall j: nat | j < |lines|
      ensures Hit(edited, delta, sets, gap, 0, j) == ShiftedHit(lines, delta, sets, gap, at, shift, j) {
      if j != at {
        HitReplaced(lines, delta, sets, gap, at, line, j);
      }
    }
    if NoHitBefore(edited, delta, sets, gap, 0, k) {
      forall j: nat | j < k ensures !ShiftedHit(lines, delta, sets, gap, at, shift, j) {
        assert !Hit(edited, delta, sets, gap, 0, j);
      }
    }
    if NoShiftedHitBefore(lines, delta, sets, gap, at, shift, k) {
      forall j: nat | j < k ensures !Hit(edited, delta, sets, gap, 0, j) {
        assert !ShiftedHit(lines, delta, sets, gap, at, shift, j);
      }
    }
  }

  lemma {:induction false} FindInserted<L>(lines: seq<L>, delta: L -> int, sets: L -> bool, gap: int, from: nat,
                                           at: nat, line: L)
    requires at <= |lines| && from <= |lines| && delta(line) == 0 && !sets(line)
    ensures var after := Inserted(lines, at, line);
            && (from <= at ==> Find(after, delta, sets, gap, from) == Moved(at, Find(lines, delta, sets, gap, from)))
            && (from >= at ==>
                  Find(after, delta, sets, gap, from + 1) == Moved(at, Find(lines, delta, sets, gap, from)))
    decreases |lines| - from
  {
    if from < |lines| {
      FindInserted(lines, delta, sets, gap - delta(lines[from]), from + 1, at, line);
    }
  }

  lemma FoundInserted<L>(lines: seq<L>, delta: L -> int, sets: L -> bool, gap: int, at: nat, line: L)
    requires at <= |lines| && delta(line) == 0 && !sets(line)
    ensures var was, now := Find(lines, delta, sets, gap, 0), Find(Inserted(lines, at, line), delta, sets, gap, 0);
            && was.Some? == now.Some?
            && (was.Some? ==> Inserted(lines, at, line)[now.value] == lines[was.value])
  {
    FindInserted(lines, delta, sets, gap, 0, at, line);
  }

  lemma {:induction false} CloserInserted<L>(lines: seq<L>, delta: L -> int, from: nat, inner: nat, at: nat, line: L)
    requires at <= |lines| && from <= |lines| && delta(line) == 0
    ensures var after := Inserted(lines, at, line);
            && (from <= at ==> Closer(after, delta, from, inner) == Moved(at, Closer(lines, delta, from, inner)))
            && (from >= at ==> Closer(after, delta, from + 1, inner) == Moved(at, Closer(lines, delta, from, inner)))
    decreases |lines| - from
  {
    if from < |lines| && inner + delta(lines[from]) >= 0 {
      CloserInserted(lines, delta, from + 1, inner + delta(lines[from]), at, line);
    }
  }

  lemma {:induction false} CloserReplaced<L>(lines: seq<L>, delta: L -> int, from: nat, inner: int, at: nat, line: L)
    requires at < |lines| && from <= |lines| && delta(line) == delta(lines[at])
    ensures Closer(lines[at := line], delta, from, inner) == Closer(lines, delta, from, inner)
    decreases |lines| - from
  {
    if from < |lines| {
      CloserReplaced(lines, delta, from + 1, inner + delta(lines[from]), at, line);
    }
  }

  /** A line inserted at the top of the block makes it one line longer. */
  lemma {:induction false} BlockInserted<L>(lines: seq<L>, delta: L -> int, opens: L -> bool, from: nat, line: L)
    requires from <= |lines| && Block(lines, delta, opens, from).Some? && delta(line) == 0
    ensures var (start, end) := Block(lines, delta, opens, from).value;
            Block(Inserted(lines, start + 1, line), delta, opens, from) == Some((start, end + 1))
    decreases |lines| - from
  {
    var (start, end) := Block(lines, delta, opens, from).value;
    CloserInserted(lines, delta, from + 1, 0, start + 1, line);
    if from < start {
      BlockInserted(lines, delta, opens, from + 1, line);
    }
  }

  lemma {:induction false} BlockReplaced<L>(lines: seq<L>, delta: L -> int, opens: L -> bool, from: nat, at: nat,
                                            line: L)
    requires from <= |lines| && at < |lines| && Block(lines, delta, opens, from).Some?
    requires Block(lines, delta, opens, from).value.0 < at && delta(line) == delta(lines[at])
    ensures Block(lines[at := line], delta, opens, from) == Block(lines, delta, opens, from)
    decreases |lines| - from
  {
    CloserReplaced(lines, delta, from + 1, 0, at, line);
    if from < Block(lines, delta, opens, from).value.0 {
      BlockReplaced(lines, delta, opens, from + 1, at, line);
    }
  }

  /** Rewriting the first marked line of all: it is what is found if it lies at the target depth, and
      the search does not see the change if it does not. */
  lemma RewriteFirst<L>(lines: seq<L>, delta: L -> int, sets: L -> bool, gap: int, at: nat, line: L)
    requires First(lines, sets, 0, |lines|) == Some(at) && sets(line) && delta(line) == delta(lines[at])
    ensures var found := Find(lines[at := line], delta, sets, gap, 0);
            && found == Find(lines, delta, sets, gap, 0)
            && (found == Some(at) <==> Depth(lines, delta, 0, at) == gap)
  {
    FindIsFirst(lines, delta, sets, gap, 0, at);
    if Depth(lines, delta, 0, at) == gap {
      FindReplaced(lines, delta, sets, gap, 0, line);
    } else {
      FindUnaffected(lines, delta, sets, gap, 0, at, line);
    }
  }

  // ---------------------------------------------------------------- editing a block

  function Body<L>(lines: seq<L>, b: (nat, nat)): seq<L>
    requires b.0 < b.1 < |lines|
  {
    lines[b.0 + 1..b.1]
  }

  /** The line of the block that a replace rewrites, if there is one. */
  function Target<L>(lines: seq<L>, sets: L -> bool, b: (nat, nat)): (r: Option<nat>)
    requires b.0 < b.1 < |lines|
    ensures r.Some? ==> b.0 < r.value < b.1 && sets(lines[r.value])
  {
    First(lines, sets, b.0 + 1, b.1)
  }

  lemma {:induction false} FirstOfBody<L>(lines: seq<L>, sets: L -> bool, b: (nat, nat), from: nat)
    requires b.0 < from <= b.1 < |lines|
    ensures var r := First(lines, sets, from, b.1);
            First(Body(lines, b), sets, from - b.0 - 1, b.1 - b.0 - 1)
            == if r.Some? then Some(r.value - b.0 - 1) else None
    decreases b.1 - from
  {
    if from < b.1 {
      FirstOfBody(lines, sets, b, from + 1);
    }
  }

  lemma FirstReplaced<L>(lines: seq<L>, sets: L -> bool, from: nat, end: nat, at: nat, line: L)
    requires from <= end <= |lines| && First(lines, sets, from, end) == Some(at) && sets(line)
    ensures First(lines[at := line], sets, from, end) == Some(at)
  {
    assert lines[at := line][at] == line;
  }

  lemma InsertInBlock<L>(lines: seq<L>, delta: L -> int, opens: L -> bool, sets: L -> bool, b: (nat, nat), line: L)
    requires Block(lines, delta, opens, 0) == Some(b) && delta(line) == 0 && sets(line)
    ensures var after, c := Inserted(lines, b.0 + 1, line), (b.0, b.1 + 1);
            && Block(after, delta, opens, 0) == Some(c)
            && Target(after, sets, c) == Some(b.0 + 1) && after[b.0 + 1] == line
            && Body(after, c) == [line] + Body(lines, b)
            && Find(Body(after, c), delta, sets, 0, 0) == Some(0)
  {
    BlockInserted(lines, delta, opens, 0, line);
    var after, c := Inserted(lines, b.0 + 1, line), (b.0, b.1 + 1);
    InsertedBody(lines, b, line);
  }

  lemma InsertedBody<L>(lines: seq<L>, b: (nat, nat), line: L)
    requires b.0 < b.1 < |lines|
    ensures Body(Inserted(lines, b.0 + 1, line), (b.0, b.1 + 1)) == [line] + Body(lines, b)
  {
    var after := Inserted(lines, b.0 + 1, line);
    forall k | b.0 + 1 < k <= b.1 ensures after[k] == lines[k - 1] {
    }
  }

  lemma RewriteInBlock<L>(lines: seq<L>, delta: L -> int, opens: L -> bool, sets: L -> bool, b: (nat, nat), at: nat,
                          line: L)
    requires Block(lines, delta, opens, 0) == Some(b) && Target(lines, sets, b) == Some(at)
    requires delta(line) == delta(lines[at]) && sets(line)
    ensures var edited, j := lines[at := line], at - b.0 - 1;
            && Block(edited, delta, opens, 0) == Some(b)
            && Target(edited, sets, b) == Some(at)
            && Body(edited, b) == Body(lines, b)[j := line]
            && Find(Body(edited, b), delta, sets, 0, 0) == Find(Body(lines, b), delta, sets, 0, 0)
            && (Find(Body(lines, b), delta, sets, 0, 0) == Some(j) <==> Depth(Body(lines, b), delta, 0, j) == 0)
  {
    BlockReplaced(lines, delta, opens, 0, at, line);
    FirstReplaced(lines, sets, b.0 + 1, b.1, at, line);
    FirstOfBody(lines, sets, b, b.0 + 1);
    RewriteFirst(Body(lines, b), delta, sets, 0, at - b.0 - 1, line);
    assert Body(lines[at := line], b) == Body(lines, b)[at - b.0 - 1 := line];
  }

  /** Where the searches end in a block with a marked line in a nested block before its own. */
  lemma NestedSearch<L>(delta: L -> int, opens: L -> bool, sets: L -> bool, open: L, inner: L, first: L, close: L,
                        second: L)
    requires delta(open) == 1 && delta(inner) == 1 && delta(close) == -1 && delta(first) == delta(second) == 0
    requires opens(open) && sets(first) && sets(second) && !sets(inner) && !sets(close)
    ensures var lines := [open, inner, first, close, second, close];
            var body := [inner, first, close, second];
            && Block(lines, delta, opens, 0) == Some((0, 5))
            && Target(lines, sets, (0, 5)) == Some(2)
            && Body(lines, (0, 5)) == body
            && Depth(body, delta, 0, 1) == 1
            && Find(body, delta, sets, 0, 0) == Some(3)
  {
    var lines := [open, inner, first, close, second, close];
    var body := [inner, first, close, second];
    assert Closer(lines, delta, 5, 0) == Some(5);
    assert Closer(lines, delta, 3, 1) == Some(5);
    assert Closer(lines, delta, 1, 0) == Some(5);
    assert Find(body, delta, sets, 0, 3) == Some(3);
    assert Find(body, delta, sets, -1, 2) == Some(3);
  }
}
