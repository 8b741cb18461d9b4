/** Every step of a connection keeps its invariant. */
module SessionSafety {
  import opened Options
  import opened Sessions

  lemma {:induction false} FirstAppend(s: seq<Result>, r: Result, id: Id)
    ensures First(s + [r], id) ==
            if First(s, id).Some? then First(s, id) else if r.id == id then Some(r) else None
  {
    if s == [] {
      assert s + [r] == [r];
    } else {
      assert (s + [r])[1..] == s[1..] + [r];
      FirstAppend(s[1..], r, id);
    }
  }

  lemma {:induction false} ChunksForAppend(up: seq<AgentMessage>, m: AgentMessage, id: Id)
    ensures ChunksFor(up + [m], id) ==
            ChunksFor(up, id) + (if m.StreamChunk? && m.chunk.stream == id then [m.chunk] else [])
  {
    if up == [] {
      assert up + [m] == [m];
    } else {
      assert (up + [m])[1..] == up[1..] + [m];
      ChunksForAppend(up[1..], m, id);
    }
  }

  lemma {:induction false} NoChunksFor(up: seq<AgentMessage>, minted: set<Id>, id: Id)
    requires ChunksMinted(up, minted) && id !in minted
    ensures ChunksFor(up, id) == []
  {
    if up != [] {
      assert up[0].StreamChunk? ==> up[0].chunk.stream in minted;
      NoChunksFor(up[1..], minted, id);
    }
  }

  // ---------------------------------------------------------------- Dispatch calls

  lemma CallActKeepsSelf(d: Desk, k: Ref, act: CallAct, allowed: set<string>, minted: set<Id>, done: bool, loop: Loop)
    requires k in d.calls && CallOk(d, k, done, loop) && CallEnabled(d, k, act, allowed, minted, done)
    requires d.sent <= d.issued.Keys && forall r :: r in d.received ==> r.id in d.issued
    ensures CallOk(CallNext(d, k, act), k, done, loop)
  {
  }

  lemma CallActKeepsOther(d: Desk, k: Ref, act: CallAct, allowed: set<string>, minted: set<Id>, done: bool,
                          loop: Loop, l: Ref)
    requires CallEnabled(d, k, act, allowed, minted, done) && CallOk(d, k, done, loop)
    requires l in d.calls && l != k && CallOk(d, l, done, loop)
    requires d.calls[k].id.Some? ==> d.calls[k].id != d.calls[l].id
    ensures CallOk(CallNext(d, k, act), l, done, loop)
  {
    var n := CallNext(d, k, act);
    assert n.calls[l] == d.calls[l];
  }

  lemma CallActKeepsIds(d: Desk, k: Ref, act: CallAct, allowed: set<string>, minted: set<Id>, done: bool)
    requires IdsDistinct(d) && CallEnabled(d, k, act, allowed, minted, done)
    requires forall l :: l in d.calls && d.calls[l].id.Some? ==> d.calls[l].id.value in d.issued
    ensures IdsDistinct(CallNext(d, k, act))
  {
    var n := CallNext(d, k, act);
    assert forall l :: l in n.calls && l != k ==> n.calls[l].id == d.calls[l].id;
    assert act.Register? || n.calls[k].id == d.calls[k].id;
  }

  lemma CallActKeepsPending(d: Desk, k: Ref, act: CallAct, allowed: set<string>, minted: set<Id>, done: bool)
    requires IdsDistinct(d) && PendingOwned(d) && CallEnabled(d, k, act, allowed, minted, done)
    requires d.calls[k].state.Found? ==> d.calls[k].id.None?
    ensures PendingOwned(CallNext(d, k, act))
  {
    var n := CallNext(d, k, act);
    forall id | id in n.pending
      ensures n.pending[id] in n.calls && n.calls[n.pending[id]].id == Some(id)
      ensures InFlight(n.calls[n.pending[id]].state)
    {
      if id in d.pending && n.pending[id] == d.pending[id] {
        assert d.pending[id] in d.calls;
      }
    }
  }

  lemma CallActKeepsDesk(d: Desk, k: Ref, act: CallAct, allowed: set<string>, minted: set<Id>, done: bool, loop: Loop)
    requires DeskOk(d, done, loop) && CallEnabled(d, k, act, allowed, minted, done)
    requires d.sent <= d.issued.Keys && forall r :: r in d.received ==> r.id in d.issued
    ensures DeskOk(CallNext(d, k, act), done, loop)
  {
    var n := CallNext(d, k, act);
    assert CallOk(d, k, done, loop);
    forall l | l in d.calls && d.calls[l].id.Some? ensures d.calls[l].id.value in d.issued {
      assert CallOk(d, l, done, loop);
    }
    CallActKeepsIds(d, k, act, allowed, minted, done);
    CallActKeepsPending(d, k, act, allowed, minted, done);
    forall l | l in n.calls ensures CallOk(n, l, done, loop) {
      if l == k {
        CallActKeepsSelf(d, k, act, allowed, minted, done, loop);
      } else {
        CallActKeepsOther(d, k, act, allowed, minted, done, loop, l);
      }
    }
  }

  lemma ResultReadKeepsDesk(d: Desk, r: Result, done: bool)
    requires DeskOk(d, done, Reading)
    ensures DeskOk(d.(received := d.received + [r]), done,
                   if r.id in d.pending then Resolving(r, d.pending[r.id]) else Reading)
  {
    var n := d.(received := d.received + [r]);
    var loop := if r.id in d.pending then Resolving(r, d.pending[r.id]) else Reading;
    forall id { FirstAppend(d.received, r, id); }
    forall l | l in n.calls ensures CallOk(n, l, done, loop) {
      assert CallOk(d, l, done, Reading);
    }
  }

  lemma DeliverKeepsDesk(d: Desk, k: Ref, r: Result, done: bool)
    requires DeskOk(d, done, Resolving(r, k))
    ensures DeskOk(DeliverTo(d, k, r), done, Reading)
  {
    var n := DeliverTo(d, k, r);
    forall l | l in n.calls ensures CallOk(n, l, done, Reading) {
      assert CallOk(d, l, done, Resolving(r, k));
    }
  }

  lemma LoopKeepsDesk(d: Desk, done: bool, loop: Loop, loop': Loop)
    requires DeskOk(d, done, loop) && !loop.Resolving? && !loop'.Resolving?
    ensures DeskOk(d, done, loop')
  {
    forall l | l in d.calls ensures CallOk(d, l, done, loop') {
      assert CallOk(d, l, done, loop);
    }
  }

  lemma CloseKeepsDesk(d: Desk, loop: Loop)
    requires DeskOk(d, false, loop)
    ensures DeskOk(CloseDesk(d), true, loop)
  {
    var n := CloseDesk(d);
    forall l | l in n.calls ensures CallOk(n, l, true, loop) {
      assert CallOk(d, l, false, loop);
      var call := d.calls[l];
      if Listening(call.state) {
        assert d.calls[d.pending[call.id.value]].id == call.id;
        assert d.pending[call.id.value] == l;
        assert l in d.pending.Values;
      }
    }
  }

  // ---------------------------------------------------------------- commands and results

  lemma CommandKeepsTraffic(down: seq<CoreMessage>, up: seq<AgentMessage>, executing: map<Id, Command>,
                            produced: map<Id, Execution>, received: seq<Result>, issued: map<Id, Command>,
                            sent: set<Id>, id: Id)
    requires TrafficOk(down, up, executing, produced, received, issued, sent)
    requires id in issued && id !in sent
    ensures TrafficOk(down + [Execute(id, issued[id])], up, executing, produced, received, issued, sent + {id})
  {
  }

  lemma IssueKeepsTraffic(down: seq<CoreMessage>, up: seq<AgentMessage>, executing: map<Id, Command>,
                          produced: map<Id, Execution>, received: seq<Result>, issued: map<Id, Command>,
                          sent: set<Id>, id: Id, command: Command)
    requires TrafficOk(down, up, executing, produced, received, issued, sent)
    requires id !in issued
    ensures TrafficOk(down, up, executing, produced, received, issued[id := command], sent)
  {
  }

  lemma StreamMessageKeepsTraffic(down: seq<CoreMessage>, up: seq<AgentMessage>, executing: map<Id, Command>,
                                  produced: map<Id, Execution>, received: seq<Result>, issued: map<Id, Command>,
                                  sent: set<Id>, m: CoreMessage)
    requires TrafficOk(down, up, executing, produced, received, issued, sent)
    requires !m.Execute?
    ensures TrafficOk(down + [m], up, executing, produced, received, issued, sent)
  {
  }

  lemma ReadKeepsTraffic(down: seq<CoreMessage>, up: seq<AgentMessage>, executing: map<Id, Command>,
                         produced: map<Id, Execution>, received: seq<Result>, issued: map<Id, Command>, sent: set<Id>)
    requires TrafficOk(down, up, executing, produced, received, issued, sent) && up != []
    ensures TrafficOk(down, up[1..], executing, produced, received, issued, sent)
    ensures up[0].CommandResult? ==>
              TrafficOk(down, up[1..], executing, produced, received + [up[0].result], issued, sent)
  {
  }

  lemma SubscribeKeepsFeeds(down: seq<CoreMessage>, feeds: map<Id, Feed>, wire: map<Id, seq<Chunk>>, asked: set<Id>,
                            id: Id, kind: string)
    requires FeedsOk(down, feeds, wire, asked) && id !in asked
    ensures FeedsOk(down + [Subscribe(id, kind)], feeds, wire, asked + {id})
  {
  }

  lemma OtherMessageKeepsFeeds(down: seq<CoreMessage>, feeds: map<Id, Feed>, wire: map<Id, seq<Chunk>>,
                               asked: set<Id>, m: CoreMessage)
    requires FeedsOk(down, feeds, wire, asked) && !m.Subscribe?
    ensures FeedsOk(down + [m], feeds, wire, asked)
  {
  }

  lemma HandleKeepsTraffic(a: Agent, down: seq<CoreMessage>, up: seq<AgentMessage>,
                           received: seq<Result>, issued: map<Id, Command>, sent: set<Id>)
    requires TrafficOk(down, up, a.executing, a.produced, received, issued, sent) && down != []
    ensures var n := Handled(a, down[0]);
            TrafficOk(down[1..], up, n.executing, n.produced, received, issued, sent)
  {
    var n := Handled(a, down[0]);
    var rest := down[1..];
    forall i | 0 <= i < |rest| && rest[i].Execute? ensures rest[i].id !in n.executing {
      assert rest[i] == down[i + 1];
    }
  }

  lemma AnswerKeepsTraffic(a: Agent, down: seq<CoreMessage>, up: seq<AgentMessage>, id: Id, reply: Reply,
                           received: seq<Result>, issued: map<Id, Command>, sent: set<Id>)
    requires TrafficOk(down, up, a.executing, a.produced, received, issued, sent) && id in a.executing
    ensures TrafficOk(down, up + [CommandResult(Result(id, reply))], a.executing - {id},
                      a.produced[id := Execution(a.executing[id], reply)], received, issued, sent)
  {
    var produced := a.produced[id := Execution(a.executing[id], reply)];
    assert forall r :: Genuine(r, a.produced) ==> Genuine(r, produced);
  }

  lemma TransmitKeepsTraffic(a: Agent, down: seq<CoreMessage>, up: seq<AgentMessage>, m: AgentMessage,
                             received: seq<Result>, issued: map<Id, Command>, sent: set<Id>)
    requires TrafficOk(down, up, a.executing, a.produced, received, issued, sent)
    requires m.CommandResult? ==> Genuine(m.result, a.produced)
    ensures TrafficOk(down, up + [m], a.executing, a.produced, received, issued, sent)
  {
  }

  lemma AgentActKeepsTraffic(a: Agent, down: seq<CoreMessage>, up: seq<AgentMessage>, act: AgentAct,
                             received: seq<Result>, issued: map<Id, Command>, sent: set<Id>)
    requires TrafficOk(down, up, a.executing, a.produced, received, issued, sent) && AgentEnabled(a, down, act)
    ensures var n := AgentNext(a, down, act);
            TrafficOk(if act.Handle? then down[1..] else down, up + Transmitted(a, down, act),
                      n.executing, n.produced, received, issued, sent)
  {
    var n, more := AgentNext(a, down, act), Transmitted(a, down, act);
    if act.Handle? {
      assert up + more == up;
      HandleKeepsTraffic(a, down, up, received, issued, sent);
    } else if act.Answered? {
      AnswerKeepsTraffic(a, down, up, act.id, act.reply, received, issued, sent);
    } else if more == [] {
      assert up + more == up;
    } else {
      assert up + more == up + [more[0]];
      TransmitKeepsTraffic(a, down, up, more[0], received, issued, sent);
    }
  }

  lemma PutKeepsFeeds(a: Agent, down: seq<CoreMessage>, id: Id, data: Bytes, eof: bool, asked: set<Id>)
    requires FeedsOk(down, a.feeds, a.wire, asked) && id in a.feeds && !a.feeds[id].ended
    ensures var n := Put(a, id, data, eof); FeedsOk(down, n.feeds, n.wire, asked)
  {
    var n := Put(a, id, data, eof);
    assert FeedOk(n.feeds[id], Wire(n.wire, id));
  }

  lemma HandleKeepsFeeds(a: Agent, down: seq<CoreMessage>, asked: set<Id>)
    requires FeedsOk(down, a.feeds, a.wire, asked) && down != []
    ensures var n := Handled(a, down[0]); FeedsOk(down[1..], n.feeds, n.wire, asked)
  {
    var n, m, rest := Handled(a, down[0]), down[0], down[1..];
    assert forall i :: 0 <= i < |rest| ==> rest[i] == down[i + 1];
    match m
    case Execute(_, _) =>
    case Subscribe(id, _) =>
      assert FeedOk(n.feeds[id], Wire(n.wire, id));
    case Cancel(id) =>
      if id in a.feeds {
        assert FeedOk(a.feeds[id], Wire(a.wire, id));
        assert FeedOk(n.feeds[id], Wire(n.wire, id));
      }
  }

  lemma FlagsKeepFeeds(a: Agent, down: seq<CoreMessage>, act: AgentAct, asked: set<Id>)
    requires FeedsOk(down, a.feeds, a.wire, asked) && AgentEnabled(a, down, act)
    requires act.EmitFail? || act.Vanish? || act.HangUp?
    ensures var n := AgentNext(a, down, act); FeedsOk(down, n.feeds, n.wire, asked)
  {
    var n := AgentNext(a, down, act);
    forall id | id in n.feeds ensures id in asked && FeedOk(n.feeds[id], Wire(n.wire, id)) {
      assert FeedOk(a.feeds[id], Wire(a.wire, id));
    }
  }

  lemma AgentActKeepsFeeds(a: Agent, down: seq<CoreMessage>, act: AgentAct, asked: set<Id>)
    requires FeedsOk(down, a.feeds, a.wire, asked) && AgentEnabled(a, down, act)
    ensures var n := AgentNext(a, down, act);
            FeedsOk(if act.Handle? then down[1..] else down, n.feeds, n.wire, asked)
  {
    if act.Handle? {
      HandleKeepsFeeds(a, down, asked);
    } else if act.Emit? {
      PutKeepsFeeds(a, down, act.id, act.data, false, asked);
    } else if act.EndOfStream? {
      PutKeepsFeeds(a, down, act.id, [], true, asked);
    } else if act.EmitFail? || act.Vanish? || act.HangUp? {
      FlagsKeepFeeds(a, down, act, asked);
    }
  }

  // ---------------------------------------------------------------- subscriptions

  lemma SubActKeepsSelf(h: Hub, u: Ref, act: SubAct, allowed: set<string>, issued: set<Id>, done: bool)
    requires SubEnabled(h, u, act, allowed, issued, done) && SubOk(h, u, done) && h.asked <= h.minted
    ensures SubOk(SubNext(h, u, act), u, done)
  {
  }

  lemma SubActKeepsOther(h: Hub, u: Ref, act: SubAct, allowed: set<string>, issued: set<Id>, done: bool, v: Ref)
    requires SubEnabled(h, u, act, allowed, issued, done) && SubOk(h, u, done)
    requires v in h.subs && v != u && SubOk(h, v, done)
    requires h.subs[u].id.Some? ==> h.subs[u].id != h.subs[v].id
    ensures SubOk(SubNext(h, u, act), v, done)
  {
    assert SubNext(h, u, act).subs[v] == h.subs[v];
  }

  lemma SubActKeepsIds(h: Hub, u: Ref, act: SubAct, allowed: set<string>, issued: set<Id>, done: bool)
    requires StreamIdsDistinct(h) && SubEnabled(h, u, act, allowed, issued, done)
    requires forall v :: v in h.subs && h.subs[v].id.Some? ==> h.subs[v].id.value in h.minted
    ensures StreamIdsDistinct(SubNext(h, u, act))
  {
    var n := SubNext(h, u, act);
    assert forall v :: v in n.subs && v != u ==> n.subs[v].id == h.subs[v].id;
    assert act.Attach? || n.subs[u].id == h.subs[u].id;
  }

  lemma SubActKeepsStreams(h: Hub, u: Ref, act: SubAct, allowed: set<string>, issued: set<Id>, done: bool)
    requires StreamIdsDistinct(h) && StreamsOwned(h) && SubEnabled(h, u, act, allowed, issued, done)
    requires h.subs[u].state.Located? ==> h.subs[u].id.None?
    ensures StreamsOwned(SubNext(h, u, act))
  {
    var n := SubNext(h, u, act);
    forall id | id in n.streams
      ensures n.streams[id] in n.subs && n.subs[n.streams[id]].id == Some(id) && Subscribed(n.subs[n.streams[id]].state)
    {
      if id in h.streams && n.streams[id] == h.streams[id] {
        assert h.streams[id] in h.subs;
      }
    }
  }

  ghost predicate SubsOk(h: Hub, done: bool) {
    forall u :: u in h.subs ==> SubOk(h, u, done)
  }

  lemma SubsMinted(h: Hub, done: bool)
    requires SubsOk(h, done)
    ensures forall v :: v in h.subs && h.subs[v].id.Some? ==> h.subs[v].id.value in h.minted
  {
    forall v | v in h.subs && h.subs[v].id.Some? ensures h.subs[v].id.value in h.minted {
      assert SubOk(h, v, done);
    }
  }

  lemma SubActKeepsSubs(h: Hub, u: Ref, act: SubAct, allowed: set<string>, issued: set<Id>, done: bool)
    requires SubsOk(h, done) && StreamIdsDistinct(h) && h.asked <= h.minted
    requires SubEnabled(h, u, act, allowed, issued, done)
    ensures SubsOk(SubNext(h, u, act), done)
  {
    var n := SubNext(h, u, act);
    assert SubOk(h, u, done);
    forall v | v in n.subs ensures SubOk(n, v, done) {
      if v == u {
        SubActKeepsSelf(h, u, act, allowed, issued, done);
      } else {
        SubActKeepsOther(h, u, act, allowed, issued, done, v);
      }
    }
  }

  lemma SubActKeepsHand(h: Hub, u: Ref, act: SubAct, allowed: set<string>, issued: set<Id>, done: bool, loop: Loop)
    requires ChunkInHandOk(h, loop) && SubEnabled(h, u, act, allowed, issued, done)
    requires h.subs[u].state.Located? ==> h.subs[u].id.None?
    ensures ChunkInHandOk(SubNext(h, u, act), loop)
  {
  }

  lemma SubActKeepsHub(h: Hub, u: Ref, act: SubAct, allowed: set<string>, issued: set<Id>, done: bool, loop: Loop)
    requires HubOk(h, done, loop) && SubEnabled(h, u, act, allowed, issued, done) && h.asked <= h.minted
    ensures HubOk(SubNext(h, u, act), done, loop)
  {
    assert SubsOk(h, done) && SubOk(h, u, done);
    SubsMinted(h, done);
    SubActKeepsIds(h, u, act, allowed, issued, done);
    SubActKeepsStreams(h, u, act, allowed, issued, done);
    SubActKeepsSubs(h, u, act, allowed, issued, done);
    SubActKeepsHand(h, u, act, allowed, issued, done, loop);
  }

  lemma SubActKeepsPipe(h: Hub, u: Ref, act: SubAct, allowed: set<string>, issued: set<Id>, done: bool, loop: Loop,
                        up: seq<AgentMessage>, wire: map<Id, seq<Chunk>>)
    requires SubEnabled(h, u, act, allowed, issued, done) && SubOk(h, u, done) && PipeOk(h, u, loop, up, wire)
    requires ChunksMinted(up, h.minted) && wire.Keys <= h.minted && ChunkInHandOk(h, loop)
    ensures PipeOk(SubNext(h, u, act), u, loop, up, wire)
  {
    var sub := h.subs[u];
    if act.Attach? {
      NoChunksFor(up, h.minted, act.id);
    } else if act.Receive? {
      assert sub.taken + [sub.buffer[0]] + sub.buffer[1..] == sub.taken + sub.buffer;
    }
  }

  lemma SubActKeepsOtherPipe(h: Hub, u: Ref, act: SubAct, allowed: set<string>, issued: set<Id>, done: bool, loop: Loop,
                             up: seq<AgentMessage>, wire: map<Id, seq<Chunk>>, v: Ref)
    requires SubEnabled(h, u, act, allowed, issued, done) && v in h.subs && v != u && SubOk(h, v, done)
    requires PipeOk(h, v, loop, up, wire)
    ensures PipeOk(SubNext(h, u, act), v, loop, up, wire)
  {
    assert SubNext(h, u, act).subs[v] == h.subs[v];
  }

  lemma SubActKeepsPipes(h: Hub, u: Ref, act: SubAct, allowed: set<string>, issued: set<Id>, done: bool, loop: Loop,
                         up: seq<AgentMessage>, wire: map<Id, seq<Chunk>>)
    requires SubsOk(h, done) && PipesOk(h, loop, up, wire) && SubEnabled(h, u, act, allowed, issued, done)
    requires ChunksMinted(up, h.minted) && wire.Keys <= h.minted && ChunkInHandOk(h, loop)
    ensures PipesOk(SubNext(h, u, act), loop, up, wire)
  {
    assert SubOk(h, u, done);
    SubActKeepsPipe(h, u, act, allowed, issued, done, loop, up, wire);
    forall v | v in h.subs && v != u ensures PipeOk(SubNext(h, u, act), v, loop, up, wire) {
      SubActKeepsOtherPipe(h, u, act, allowed, issued, done, loop, up, wire, v);
    }
  }

  lemma ChunkReadKeepsPipe(h: Hub, v: Ref, up: seq<AgentMessage>, wire: map<Id, seq<Chunk>>, done: bool)
    requires up != [] && up[0].StreamChunk? && HubOk(h, done, Reading) && v in h.subs && PipeOk(h, v, Reading, up, wire)
    ensures var chunk := up[0].chunk;
            PipeOk(h, v, if chunk.stream in h.streams then Forwarding(chunk, h.streams[chunk.stream]) else Reading,
                   up[1..], wire)
  {
    var chunk, sub := up[0].chunk, h.subs[v];
    if sub.id.Some? && sub.id.value == chunk.stream && chunk.stream in h.streams {
      assert h.streams[chunk.stream] == v;
      var before := sub.taken + sub.buffer;
      assert Arrived(v, sub, Reading) == before;
      assert before + ([chunk] + ChunksFor(up[1..], chunk.stream))
          == before + [chunk] + ChunksFor(up[1..], chunk.stream);
    } else if sub.id.Some? {
      assert chunk.stream in h.streams ==> h.streams[chunk.stream] != v;
      assert sub.id.value in h.streams ==> ChunksFor(up, sub.id.value) == ChunksFor(up[1..], sub.id.value);
    }
  }

  lemma ChunkReadKeepsPipes(h: Hub, up: seq<AgentMessage>, wire: map<Id, seq<Chunk>>, done: bool)
    requires up != [] && up[0].StreamChunk? && HubOk(h, done, Reading) && PipesOk(h, Reading, up, wire)
    ensures var chunk := up[0].chunk;
            PipesOk(h, if chunk.stream in h.streams then Forwarding(chunk, h.streams[chunk.stream]) else Reading,
                    up[1..], wire)
  {
    forall v | v in h.subs { ChunkReadKeepsPipe(h, v, up, wire, done); }
  }

  lemma ForwardKeepsPipes(h: Hub, u: Ref, chunk: Chunk, up: seq<AgentMessage>, wire: map<Id, seq<Chunk>>)
    requires u in h.subs && PipesOk(h, Forwarding(chunk, u), up, wire)
    ensures PipesOk(ForwardTo(h, u, chunk), Reading, up, wire)
  {
    var n := ForwardTo(h, u, chunk);
    forall v | v in n.subs ensures PipeOk(n, v, Reading, up, wire) {
      assert PipeOk(h, v, Forwarding(chunk, u), up, wire);
      assert Arrived(v, n.subs[v], Reading) == Arrived(v, h.subs[v], Forwarding(chunk, u));
    }
  }

  lemma ForwardKeepsHub(h: Hub, u: Ref, chunk: Chunk, done: bool)
    requires HubOk(h, done, Forwarding(chunk, u))
    ensures HubOk(ForwardTo(h, u, chunk), done, Reading)
  {
    var n := ForwardTo(h, u, chunk);
    forall v | v in n.subs ensures SubOk(n, v, done) {
      assert SubOk(h, v, done);
    }
  }

  lemma DropKeepsPipes(h: Hub, chunk: Chunk, u: Ref, up: seq<AgentMessage>, wire: map<Id, seq<Chunk>>)
    requires h.streams == map[] && PipesOk(h, Forwarding(chunk, u), up, wire)
    ensures PipesOk(h, Reading, up, wire)
  {
    forall v | v in h.subs ensures PipeOk(h, v, Reading, up, wire) {
      assert PipeOk(h, v, Forwarding(chunk, u), up, wire);
    }
  }

  lemma OtherReadKeepsPipes(h: Hub, loop: Loop, up: seq<AgentMessage>, wire: map<Id, seq<Chunk>>, loop': Loop)
    requires PipesOk(h, loop, up, wire) && !loop.Forwarding? && !loop'.Forwarding?
    ensures PipesOk(h, loop', up, wire)
    ensures up != [] && !up[0].StreamChunk? ==> PipesOk(h, loop', up[1..], wire)
  {
    forall v | v in h.subs
      ensures PipeOk(h, v, loop', up, wire)
      ensures up != [] && !up[0].StreamChunk? ==> PipeOk(h, v, loop', up[1..], wire)
    {
      assert PipeOk(h, v, loop, up, wire);
    }
  }

  lemma AgentActKeepsPipes(h: Hub, loop: Loop, up: seq<AgentMessage>, a: Agent, down: seq<CoreMessage>, act: AgentAct)
    requires PipesOk(h, loop, up, a.wire) && AgentEnabled(a, down, act)
    ensures PipesOk(h, loop, up + Transmitted(a, down, act), AgentNext(a, down, act).wire)
  {
    var more := Transmitted(a, down, act);
    var wire := AgentNext(a, down, act).wire;
    forall v | v in h.subs ensures PipeOk(h, v, loop, up + more, wire) {
      assert PipeOk(h, v, loop, up, a.wire);
      var sub := h.subs[v];
      if more == [] {
        assert up + more == up;
      } else if sub.id.Some? {
        assert up + more == up + [more[0]];
        ChunksForAppend(up, more[0], sub.id.value);
        assert Wire(wire, sub.id.value) == Wire(a.wire, sub.id.value)
               + (if more[0].StreamChunk? && more[0].chunk.stream == sub.id.value then [more[0].chunk] else []);
      }
    }
  }

  lemma CloseKeepsHub(h: Hub, loop: Loop, up: seq<AgentMessage>, wire: map<Id, seq<Chunk>>)
    requires HubOk(h, false, loop) && PipesOk(h, loop, up, wire)
    ensures HubOk(h.(streams := map[]), true, loop) && PipesOk(h.(streams := map[]), loop, up, wire)
  {
    var n := h.(streams := map[]);
    forall v | v in n.subs ensures SubOk(n, v, true) && PipeOk(n, v, loop, up, wire) {
      assert SubOk(h, v, false) && PipeOk(h, v, loop, up, wire);
    }
  }

  // ---------------------------------------------------------------- the whole invariant

  lemma CallStepKeepsInv(c: Conn, k: Ref, act: CallAct)
    requires Inv(c) && Enabled(c, OnCall(k, act))
    ensures Inv(Next(c, OnCall(k, act)))
  {
    assert forall r :: r in c.desk.received ==> Genuine(r, c.agent.produced);
    assert CallOk(c.desk, k, c.done, c.loop);
    var call, more := c.desk.calls[k], CallMessage(c.desk, k, act);
    CallActKeepsDesk(c.desk, k, act, c.allowed, c.hub.minted, c.done, c.loop);
    if act.Send? {
      CommandKeepsTraffic(c.down, c.up, c.agent.executing, c.agent.produced, c.desk.received, c.desk.issued,
                          c.desk.sent, call.id.value);
      OtherMessageKeepsFeeds(c.down, c.agent.feeds, c.agent.wire, c.hub.asked, more[0]);
    } else {
      assert c.down + more == c.down;
      if act.Register? {
        IssueKeepsTraffic(c.down, c.up, c.agent.executing, c.agent.produced, c.desk.received, c.desk.issued,
                          c.desk.sent, act.id, call.command);
      }
    }
  }

  lemma SubMessageKeepsTraffic(h: Hub, u: Ref, act: SubAct, allowed: set<string>, done: bool, down: seq<CoreMessage>,
                               up: seq<AgentMessage>, a: Agent, received: seq<Result>, issued: map<Id, Command>,
                               sent: set<Id>)
    requires SubEnabled(h, u, act, allowed, issued.Keys, done) && SubOk(h, u, done)
    requires TrafficOk(down, up, a.executing, a.produced, received, issued, sent)
    requires FeedsOk(down, a.feeds, a.wire, h.asked)
    ensures TrafficOk(down + SubMessage(h, u, act), up, a.executing, a.produced, received, issued, sent)
    ensures FeedsOk(down + SubMessage(h, u, act), a.feeds, a.wire, SubNext(h, u, act).asked)
  {
    var more := SubMessage(h, u, act);
    if more == [] {
      assert down + more == down;
    } else {
      StreamMessageKeepsTraffic(down, up, a.executing, a.produced, received, issued, sent, more[0]);
      if act.Ask? {
        SubscribeKeepsFeeds(down, a.feeds, a.wire, h.asked, h.subs[u].id.value, h.subs[u].kind);
      } else {
        OtherMessageKeepsFeeds(down, a.feeds, a.wire, h.asked, more[0]);
      }
    }
  }

  lemma SubStepKeepsInv(c: Conn, u: Ref, act: SubAct)
    requires Inv(c) && Enabled(c, OnSub(u, act))
    ensures Inv(Next(c, OnSub(u, act)))
  {
    assert SubOk(c.hub, u, c.done);
    SubActKeepsHub(c.hub, u, act, c.allowed, c.desk.issued.Keys, c.done, c.loop);
    assert SubsOk(c.hub, c.done);
    SubActKeepsPipes(c.hub, u, act, c.allowed, c.desk.issued.Keys, c.done, c.loop, c.up, c.agent.wire);
    SubMessageKeepsTraffic(c.hub, u, act, c.allowed, c.done, c.down, c.up, c.agent, c.desk.received, c.desk.issued,
                           c.desk.sent);
  }

  lemma LoopStepKeepsInv(c: Conn, act: LoopAct)
    requires Inv(c) && Enabled(c, OnLoop(act))
    ensures Inv(Next(c, OnLoop(act)))
  {
    var n := Next(c, OnLoop(act));
    if act.ReadResult? || act.ReadChunk? || act.ReadNotice? {
      ReadKeepsTraffic(c.down, c.up, c.agent.executing, c.agent.produced, c.desk.received, c.desk.issued, c.desk.sent);
    }
    match act
    case ReadResult =>
      ResultReadKeepsDesk(c.desk, c.up[0].result, c.done);
      OtherReadKeepsPipes(c.hub, c.loop, c.up, c.agent.wire, n.loop);
    case Deliver =>
      DeliverKeepsDesk(c.desk, c.loop.to, c.loop.result, c.done);
      OtherReadKeepsPipes(c.hub, c.loop, c.up, c.agent.wire, n.loop);
    case ReadChunk =>
      LoopKeepsDesk(c.desk, c.done, c.loop, n.loop);
      ChunkReadKeepsPipes(c.hub, c.up, c.agent.wire, c.done);
    case Forward =>
      LoopKeepsDesk(c.desk, c.done, c.loop, n.loop);
      ForwardKeepsHub(c.hub, c.loop.to, c.loop.chunk, c.done);
      ForwardKeepsPipes(c.hub, c.loop.to, c.loop.chunk, c.up, c.agent.wire);
    case DropForward =>
      LoopKeepsDesk(c.desk, c.done, c.loop, n.loop);
      DropKeepsPipes(c.hub, c.loop.chunk, c.loop.to, c.up, c.agent.wire);
    case ReadNotice =>
      OtherReadKeepsPipes(c.hub, c.loop, c.up, c.agent.wire, n.loop);
    case Stop =>
      LoopKeepsDesk(c.desk, c.done, c.loop, n.loop);
      OtherReadKeepsPipes(c.hub, c.loop, c.up, c.agent.wire, n.loop);
  }

  lemma AgentStepKeepsInv(c: Conn, act: AgentAct)
    requires Inv(c) && Enabled(c, OnAgent(act))
    ensures Inv(Next(c, OnAgent(act)))
  {
    AgentActKeepsTraffic(c.agent, c.down, c.up, act, c.desk.received, c.desk.issued, c.desk.sent);
    AgentActKeepsFeeds(c.agent, c.down, act, c.hub.asked);
    AgentActKeepsPipes(c.hub, c.loop, c.up, c.agent, c.down, act);
  }

  lemma StepKeepsInv(c: Conn, st: Step)
    requires Inv(c) && Enabled(c, st)
    ensures Inv(Next(c, st))
  {
    match st
    case OnCall(k, act) => CallStepKeepsInv(c, k, act);
    case OnSub(u, act) => SubStepKeepsInv(c, u, act);
    case OnLoop(act) => LoopStepKeepsInv(c, act);
    case OnAgent(act) => AgentStepKeepsInv(c, act);
  }

  lemma CloseKeepsInv(c: Conn)
    requires Inv(c)
    ensures Inv(Close(c))
  {
    if !c.done {
      CloseKeepsDesk(c.desk, c.loop);
      CloseKeepsHub(c.hub, c.loop, c.up, c.agent.wire);
    }
  }

  lemma StartCallKeepsInv(c: Conn, k: Ref, command: Command)
    requires Inv(c) && k !in c.desk.calls
    ensures Inv(StartCall(c, k, command))
  {
    var n := StartCall(c, k, command);
    forall l | l in n.desk.calls && l != k ensures CallOk(n.desk, l, c.done, c.loop) {
      assert CallOk(c.desk, l, c.done, c.loop);
    }
    assert CallOk(n.desk, k, c.done, c.loop);
  }

  lemma StartSubKeepsInv(c: Conn, u: Ref, kind: string)
    requires Inv(c) && u !in c.hub.subs
    ensures Inv(StartSub(c, u, kind))
  {
    var n := StartSub(c, u, kind);
    forall v | v in n.hub.subs && v != u
      ensures SubOk(n.hub, v, c.done) && PipeOk(n.hub, v, c.loop, c.up, c.agent.wire)
    {
      assert SubOk(c.hub, v, c.done) && PipeOk(c.hub, v, c.loop, c.up, c.agent.wire);
    }
    assert SubOk(n.hub, u, c.done) && PipeOk(n.hub, u, c.loop, c.up, c.agent.wire);
  }
}
