/**
  Streaming command output: the bytes of a reader, in whatever chunks they come, are sent on line by
  line up to a limit.  A byte is a character.
*/
module StreamLines {
  import opened Text

  const NEWLINE := '\n'
  /** The limit that the Agent uses. */
  const MAX_COMMAND_OUTPUT := 0x10_0000

  /** A line is sent behind the prefix of its stream. */
  datatype Message = Line(text: string) | Truncated

  // ---------------------------------------------------------------- what is to be sent

  function Clip(line: string, limit: nat): (r: string)
    ensures r <= line && |r| <= limit && (|line| <= limit ==> r == line)
  {
    if |line| <= limit then line else line[..limit]
  }

  /** The lines of a stream: all but the last are ended by a newline. */
  function Sent(lines: seq<string>, emitted: nat, limit: nat): seq<Message> {
    if lines == [] then []
    else
      var line := Clip(lines[0], limit);
      if |lines| == 1 then (if 0 < |line| && emitted + |line| <= limit then [Line(line)] else [])
      else if emitted + |line| > limit then [Truncated]
      else [Line(line)] + Sent(lines[1..], emitted + |line|, limit)
  }

  function Output(stream: string, limit: nat): seq<Message> {
    Sent(Split(stream, NEWLINE), 0, limit)
  }

  function Concat(chunks: seq<string>): string {
    if chunks == [] then [] else chunks[0] + Concat(chunks[1..])
  }

  // ---------------------------------------------------------------- byte by byte

  /** What is still to be sent with a line begun and more bytes to come. */
  function Rest(line: string, emitted: nat, bytes: string, limit: nat): seq<Message>
    decreases |bytes|
  {
    if bytes == [] then (if 0 < |line| && emitted + |line| <= limit then [Line(line)] else [])
    else if bytes[0] == NEWLINE then
      if emitted + |line| > limit then [Truncated]
      else [Line(line)] + Rest([], emitted + |line|, bytes[1..], limit)
    else Rest(if |line| < limit then line + [bytes[0]] else line, emitted, bytes[1..], limit)
  }

  lemma ClipMore(raw: string, c: char, limit: nat)
    ensures Clip(raw + [c], limit) == if |Clip(raw, limit)| < limit then Clip(raw, limit) + [c] else Clip(raw, limit)
  {
  }

  lemma SentFirst(raw: string, lines: seq<string>, emitted: nat, limit: nat)
    requires lines != []
    ensures var line := Clip(raw, limit);
            Sent([raw] + lines, emitted, limit)
            == if emitted + |line| > limit then [Truncated] else [Line(line)] + Sent(lines, emitted + |line|, limit)
  {
    assert ([raw] + lines)[1..] == lines;
  }

  /** The lines of a begun line and the bytes after it. */
  lemma SplitBegun(raw: string, bytes: string)
    requires NEWLINE !in raw
    ensures bytes == [] ==> Split(raw + bytes, NEWLINE) == [raw]
    ensures bytes != [] && bytes[0] == NEWLINE ==> Split(raw + bytes, NEWLINE) == [raw] + Split(bytes[1..], NEWLINE)
    ensures bytes != [] ==> raw + bytes == (raw + [bytes[0]]) + bytes[1..]
  {
    if bytes == [] {
      assert raw + bytes == raw;
      SplitNone(raw, NEWLINE);
    } else if bytes[0] == NEWLINE {
      assert raw + bytes == raw + [NEWLINE] + bytes[1..];
      SplitFirst(raw, bytes[1..], NEWLINE);
    }
  }

  /** The bytes of a line that were not kept do not matter. */
  lemma {:induction false} RestIsSent(raw: string, emitted: nat, bytes: string, limit: nat)
    requires NEWLINE !in raw
    ensures Rest(Clip(raw, limit), emitted, bytes, limit) == Sent(Split(raw + bytes, NEWLINE), emitted, limit)
    decreases |bytes|
  {
    SplitBegun(raw, bytes);
    if bytes != [] && bytes[0] == NEWLINE {
      SentFirst(raw, Split(bytes[1..], NEWLINE), emitted, limit);
      if emitted + |Clip(raw, limit)| <= limit {
        RestIsSent([], emitted + |Clip(raw, limit)|, bytes[1..], limit);
        assert [] + bytes[1..] == bytes[1..];
      }
    } else if bytes != [] {
      ClipMore(raw, bytes[0], limit);
      RestIsSent(raw + [bytes[0]], emitted, bytes[1..], limit);
    }
  }

  predicate Unhindered(cancel: nat -> bool, n: nat) {
    forall k :: 0 <= k < n ==> !cancel(k)
  }

  /** However the reader cuts the stream into chunks, the same messages are sent.  `cancel` says which of them
      finds the context cancelled: those before it are sent, and no other. */
  method Stream(chunks: seq<string>, limit: nat, cancel: nat -> bool) returns (sent: seq<Message>, cancelled: bool)
    ensures sent <= Output(Concat(chunks), limit) && Unhindered(cancel, |sent|)
    ensures !cancelled ==> sent == Output(Concat(chunks), limit)
    ensures cancelled ==> |sent| < |Output(Concat(chunks), limit)| && cancel(|sent|)
  {
    ghost var all := Output(Concat(chunks), limit);
    RestIsSent([], 0, Concat(chunks), limit);
    assert [] + Concat(chunks) == Concat(chunks);
    var line: string, emitted: nat, done := "", 0, false;
    sent, cancelled := [], false;
    for i := 0 to |chunks|
      invariant !cancelled
      invariant all == sent + Rest(line, emitted, Concat(chunks[i..]), limit) && Unhindered(cancel, |sent|)
    {
      assert Concat(chunks[i..]) == chunks[i] + Concat(chunks[i + 1..]);
      line, emitted, sent, done, cancelled :=
        Read(chunks[i], Concat(chunks[i + 1..]), line, emitted, sent, limit, cancel, all);
      if done || cancelled {
        return;
      }
    }
    assert chunks[|chunks|..] == [] && all == sent + Rest(line, emitted, [], limit);
    if |line| > 0 && emitted + |line| <= limit {
      cancelled := cancel(|sent|);
      if !cancelled {
        sent := sent + [Line(line)];
      }
    }
  }

  /** One chunk; `later` is what the reader has not returned yet. */
  method Read(chunk: string, ghost later: string, line0: string, emitted0: nat, sent0: seq<Message>, limit: nat,
              cancel: nat -> bool, ghost all: seq<Message>)
    returns (line: string, emitted: nat, sent: seq<Message>, done: bool, cancelled: bool)
    requires all == sent0 + Rest(line0, emitted0, chunk + later, limit) && Unhindered(cancel, |sent0|)
    ensures sent <= all && Unhindered(cancel, |sent|)
    ensures !done && !cancelled ==> all == sent + Rest(line, emitted, later, limit)
    ensures done && !cancelled ==> all == sent
    ensures cancelled ==> |sent| < |all| && cancel(|sent|)
  {
    line, emitted, sent, done, cancelled := line0, emitted0, sent0, false, false;
    assert chunk[0..] == chunk;
    for j := 0 to |chunk|
      invariant !done && !cancelled && all == sent + Rest(line, emitted, chunk[j..] + later, limit)
      invariant Unhindered(cancel, |sent|)
    {
      ghost var bytes := chunk[j..] + later;
      assert bytes[0] == chunk[j] && bytes[1..] == chunk[j + 1..] + later;
      if chunk[j] == NEWLINE {
        emitted := emitted + |line|;
        cancelled := cancel(|sent|);
        if cancelled {
          return;
        }
        if emitted > limit {
          sent, done := sent + [Truncated], true;
          return;
        }
        sent, line := sent + [Line(line)], "";
      } else if |line| < limit {
        line := line + [chunk[j]];
      }
    }
    assert chunk[|chunk|..] + later == later;
  }

  // ---------------------------------------------------------------- properties of what is sent

  function Total(sent: seq<Message>): nat {
    if sent == [] then 0 else (if sent[0].Line? then |sent[0].text| else 0) + Total(sent[1..])
  }

  /** The lines that are sent never exceed the limit together, and nothing follows the truncation mark. */
  lemma {:induction false} SentIsBounded(lines: seq<string>, emitted: nat, limit: nat)
    requires emitted <= limit
    ensures var sent := Sent(lines, emitted, limit);
            && emitted + Total(sent) <= limit
            && forall i :: 0 <= i < |sent| && sent[i].Truncated? ==> i == |sent| - 1
  {
    if |lines| > 1 && emitted + |Clip(lines[0], limit)| <= limit {
      var line := Clip(lines[0], limit);
      SentIsBounded(lines[1..], emitted + |line|, limit);
      var rest := Sent(lines[1..], emitted + |line|, limit);
      assert ([Line(line)] + rest)[1..] == rest;
    }
  }

  /** What the ended lines come to, each clipped. */
  function Ended(lines: seq<string>, limit: nat): nat {
    if |lines| <= 1 then 0 else |Clip(lines[0], limit)| + Ended(lines[1..], limit)
  }

  function AllOf(lines: seq<string>): seq<Message> {
    if lines == [] then []
    else if |lines| == 1 then (if lines[0] == [] then [] else [Line(lines[0])])
    else [Line(lines[0])] + AllOf(lines[1..])
  }

  function Length(lines: seq<string>): nat {
    if lines == [] then 0 else |lines[0]| + Length(lines[1..])
  }

  /** The truncation mark is sent exactly when the ended lines exceed the limit; a last line without
      its newline is dropped without a mark. */
  lemma {:induction false} TruncatedIff(lines: seq<string>, emitted: nat, limit: nat)
    requires emitted <= limit
    ensures Truncated in Sent(lines, emitted, limit) <==> emitted + Ended(lines, limit) > limit
  {
    if |lines| > 1 && emitted + |Clip(lines[0], limit)| <= limit {
      TruncatedIff(lines[1..], emitted + |Clip(lines[0], limit)|, limit);
    }
  }

  lemma {:induction false} TotalOfAll(lines: seq<string>)
    ensures Total(AllOf(lines)) == Length(lines)
  {
    if |lines| > 1 {
      TotalOfAll(lines[1..]);
      assert AllOf(lines)[1..] == AllOf(lines[1..]);
    }
  }

  lemma {:induction false} FittingIsSent(lines: seq<string>, emitted: nat, limit: nat)
    requires emitted + Length(lines) <= limit
    ensures Sent(lines, emitted, limit) == AllOf(lines)
  {
    if |lines| > 1 {
      FittingIsSent(lines[1..], emitted + |lines[0]|, limit);
    }
  }

  /** Everything is sent, unclipped and with nothing added, exactly within the limit. */
  lemma WithinLimit(lines: seq<string>, emitted: nat, limit: nat)
    requires emitted <= limit
    ensures Sent(lines, emitted, limit) == AllOf(lines) <==> emitted + Length(lines) <= limit
  {
    if emitted + Length(lines) <= limit {
      FittingIsSent(lines, emitted, limit);
    } else {
      SentIsBounded(lines, emitted, limit);
      TotalOfAll(lines);
    }
  }

  predicate LosesSilently(stream: string, limit: nat) {
    Output(stream, limit) != AllOf(Split(stream, NEWLINE)) && Truncated !in Output(stream, limit)
  }

  /** Something is lost without the mark exactly when the stream exceeds the limit and its ended lines, each
      clipped, do not. */
  lemma SilentLossIff(stream: string, limit: nat)
    ensures LosesSilently(stream, limit)
            <==> Length(Split(stream, NEWLINE)) > limit && Ended(Split(stream, NEWLINE), limit) <= limit
  {
    WithinLimit(Split(stream, NEWLINE), 0, limit);
    TruncatedIff(Split(stream, NEWLINE), 0, limit);
  }

  /** One line over the limit: it is clipped to the limit and the mark is not sent. */
  lemma ClippedLineIsSilent(line: string, limit: nat)
    requires |line| > limit && NEWLINE !in line
    ensures Output(line + [NEWLINE], limit) == [Line(line[..limit])] && LosesSilently(line + [NEWLINE], limit)
  {
    assert line + [NEWLINE] == line + [NEWLINE] + [];
    SplitFirst(line, [], NEWLINE);
    var lines := Split(line + [NEWLINE], NEWLINE);
    assert lines == [line, []] && lines[1..] == [[]];
    assert Clip(line, limit) == line[..limit] && Sent([[]], limit, limit) == [];
    assert Sent(lines, 0, limit) == [Line(line[..limit])] + Sent(lines[1..], limit, limit);
    assert AllOf(lines)[0] == Line(line);
  }

  /** A last line without its newline that does not fit is dropped and the mark is not sent. */
  lemma UnendedLineIsSilent(line: string, last: string, limit: nat)
    requires NEWLINE !in line && NEWLINE !in last && 0 < |line| <= limit && |line| + |last| > limit
    ensures Output(line + [NEWLINE] + last, limit) == [Line(line)] && LosesSilently(line + [NEWLINE] + last, limit)
  {
    SplitFirst(line, last, NEWLINE);
    SplitNone(last, NEWLINE);
    var lines := Split(line + [NEWLINE] + last, NEWLINE);
    assert lines == [line, last] && lines[1..] == [last];
    assert |Clip(last, limit)| + |line| > limit && Sent([last], |line|, limit) == [];
    assert Sent(lines, 0, limit) == [Line(line)] + Sent(lines[1..], |line|, limit);
    assert AllOf([last]) == [Line(last)] && AllOf(lines) == [Line(line)] + AllOf(lines[1..]);
  }

  lemma OutputIsBounded(stream: string, limit: nat)
    ensures var sent, lines := Output(stream, limit), Split(stream, NEWLINE);
            && Total(sent) <= limit
            && (forall i :: 0 <= i < |sent| && sent[i].Truncated? ==> i == |sent| - 1)
            && (Truncated in sent <==> Ended(lines, limit) > limit)
            && (sent == AllOf(lines) <==> Length(lines) <= limit)
  {
    var lines := Split(stream, NEWLINE);
    SentIsBounded(lines, 0, limit);
    TruncatedIff(lines, 0, limit);
    WithinLimit(lines, 0, limit);
  }
}
