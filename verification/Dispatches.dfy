/**
  What becomes of a Dispatch: what it takes from its waiter is what it returns, every error has its
  reason, and nothing stands in the way of an answer or of a chunk.
*/
module Dispatches {
  import opened Options
  import opened Sessions
  import opened SessionSafety
  import opened ControlPlane

  // ---------------------------------------------------------------- every error has its reason

  predicate Ended(call: Call, error: Error) {
    call.state == Finishing(Err(error)) || call.state == Returned(Err(error))
  }

  ghost predicate CallExplained(d: Desk, k: Ref, done: bool, allowed: set<string>)
    requires k in d.calls
  {
    var call := d.calls[k];
    && (call.waiter == Some(Hangup) ==> done)
    && (Ended(call, ConnectionClosed) ==> done)
    && (Ended(call, CapabilityAbsent) ==> call.command.kind !in allowed)
    && (forall m :: Ended(call, Remote(m)) ==>
          call.id.Some? && First(d.received, call.id.value) == Some(Result(call.id.value, Failure(m))))
  }

  ghost predicate Explained(c: Conn) {
    forall k :: k in c.desk.calls ==> CallExplained(c.desk, k, c.done, c.allowed)
  }

  lemma CallActExplained(d: Desk, k: Ref, act: CallAct, allowed: set<string>, minted: set<Id>, done: bool, loop: Loop,
                         l: Ref)
    requires CallEnabled(d, k, act, allowed, minted, done) && CallOk(d, k, done, loop)
    requires l in d.calls && CallExplained(d, l, done, allowed) && CallExplained(d, k, done, allowed)
    ensures CallExplained(CallNext(d, k, act), l, done, allowed)
  {
    var n := CallNext(d, k, act);
    if l != k {
      assert n.calls[l] == d.calls[l];
    } else if act.Take? && d.calls[k].waiter.value.Answer? {
      assert First(d.received, d.calls[k].id.value) == Some(d.calls[k].waiter.value.result);
    }
  }

  lemma ReceivedExplained(d: Desk, r: Result, l: Ref, done: bool, allowed: set<string>)
    requires l in d.calls && CallExplained(d, l, done, allowed)
    ensures CallExplained(d.(received := d.received + [r]), l, done, allowed)
  {
    if d.calls[l].id.Some? {
      FirstAppend(d.received, r, d.calls[l].id.value);
    }
  }

  lemma InvCall(c: Conn, k: Ref)
    requires Inv(c) && k in c.desk.calls
    ensures CallOk(c.desk, k, c.done, c.loop)
  {
  }

  lemma CallStepExplained(c: Conn, k: Ref, act: CallAct)
    requires Explained(c) && CallEnabled(c.desk, k, act, c.allowed, c.hub.minted, c.done)
    requires CallOk(c.desk, k, c.done, c.loop)
    ensures Explained(c.(desk := CallNext(c.desk, k, act)))
  {
    forall l | l in c.desk.calls ensures CallExplained(CallNext(c.desk, k, act), l, c.done, c.allowed) {
      assert CallExplained(c.desk, l, c.done, c.allowed) && CallExplained(c.desk, k, c.done, c.allowed);
      CallActExplained(c.desk, k, act, c.allowed, c.hub.minted, c.done, c.loop, l);
    }
  }

  lemma LoopStepExplained(c: Conn, act: LoopAct)
    requires Explained(c) && LoopEnabled(c, act)
    ensures Explained(LoopNext(c, act))
  {
    var n := LoopNext(c, act);
    forall l | l in n.desk.calls ensures CallExplained(n.desk, l, n.done, n.allowed) {
      assert CallExplained(c.desk, l, c.done, c.allowed);
      if act.ReadResult? {
        ReceivedExplained(c.desk, c.up[0].result, l, c.done, c.allowed);
      }
    }
  }

  /** Explained looks only at the desk, the flag and the capabilities. */
  lemma SameDeskExplained(c: Conn, n: Conn)
    requires Explained(c) && n.desk == c.desk && n.done == c.done && n.allowed == c.allowed
    ensures Explained(n)
  {
  }

  lemma StepExplained(c: Conn, st: Step)
    requires Inv(c) && Enabled(c, st) && Explained(c)
    ensures Explained(Next(c, st))
  {
    match st
    case OnCall(k, act) =>
      InvCall(c, k);
      CallStepExplained(c, k, act);
      SameDeskExplained(c.(desk := CallNext(c.desk, k, act)), Next(c, st));
    case OnLoop(act) => LoopStepExplained(c, act);
    case _ => SameDeskExplained(c, Next(c, st));
  }

  lemma CloseExplained(c: Conn)
    requires Explained(c)
    ensures Explained(Close(c))
  {
    forall l | l in Close(c).desk.calls ensures CallExplained(Close(c).desk, l, true, c.allowed) {
      assert CallExplained(c.desk, l, c.done, c.allowed);
    }
  }

  lemma StartExplained(c: Conn, k: Ref, command: Command)
    requires Explained(c)
    ensures Explained(StartCall(c, k, command))
  {
    forall l | l in c.desk.calls && l != k ensures CallExplained(StartCall(c, k, command).desk, l, c.done, c.allowed) {
      assert CallExplained(c.desk, l, c.done, c.allowed);
    }
  }

  /** What an event can make of a connection. */
  predicate Follows(c: Conn, e: Event, n: Conn) {
    || n == c
    || n == Close(c)
    || (e.Dispatch? && n == StartCall(c, e.call, e.command))
    || (e.Watch? && n == StartSub(c, e.sub, e.kind))
    || (e.Within? && Enabled(c, e.step) && n == Next(c, e.step))
  }

  lemma ConnAfter(s: System, e: Event, sid: Sid)
    requires Possible(s, e) && sid in Apply(s, e).conns
    ensures sid in s.conns ==> Follows(s.conns[sid], e, Apply(s, e).conns[sid])
    ensures sid !in s.conns ==> e.Hello? && Apply(s, e).conns[sid] == NewConn(e.server, e.allowed)
  {
  }

  lemma FollowsExplained(c: Conn, e: Event, n: Conn)
    requires Inv(c) && Explained(c) && Follows(c, e, n)
    ensures Explained(n)
  {
    if n == Close(c) {
      CloseExplained(c);
    } else if e.Dispatch? && n == StartCall(c, e.call, e.command) {
      StartExplained(c, e.call, e.command);
    } else if e.Within? && Enabled(c, e.step) && n == Next(c, e.step) {
      StepExplained(c, e.step);
    }
  }

  lemma {:induction false} RunExplained(run: seq<System>, events: seq<Event>, i: nat, sid: Sid)
    requires IsRun(run, events) && i < |run| && sid in run[i].conns
    ensures Explained(run[i].conns[sid])
  {
    if i > 0 {
      ConnAfter(run[i - 1], events[i - 1], sid);
      if sid in run[i - 1].conns {
        RunExplained(run, events, i - 1, sid);
        RunConnIsSafe(run, events, i - 1, sid);
        FollowsExplained(run[i - 1].conns[sid], events[i - 1], run[i].conns[sid]);
      }
    }
  }

  /** In every state of every run: a remote error is the failure that was received first for the call's own
      ID, a closed connection is closed, and an absent capability is absent. */
  lemma ErrorsHaveReasons(run: seq<System>, events: seq<Event>, i: nat, sid: Sid, k: Ref, error: Error)
    requires IsRun(run, events) && i < |run| && sid in run[i].conns && k in run[i].conns[sid].desk.calls
    requires run[i].conns[sid].desk.calls[k].state == Returned(Err(error))
    ensures var c := run[i].conns[sid];
            var call := c.desk.calls[k];
            match error
            case Remote(m) =>
              call.id.Some? && First(c.desk.received, call.id.value) == Some(Result(call.id.value, Failure(m)))
            case ConnectionClosed => c.done
            case CapabilityAbsent => call.command.kind !in c.allowed
            case ContextDone => true
  {
    RunExplained(run, events, i, sid);
    assert CallExplained(run[i].conns[sid].desk, k, run[i].conns[sid].done, run[i].conns[sid].allowed);
    assert Ended(run[i].conns[sid].desk.calls[k], error);
  }

  // ---------------------------------------------------------------- what is taken is returned

  predicate Settled(c: Conn, k: Ref, outcome: Outcome) {
    k in c.desk.calls && (c.desk.calls[k].state == Finishing(outcome) || c.desk.calls[k].state == Returned(outcome))
  }

  lemma StepKeepsSettled(c: Conn, st: Step, k: Ref, outcome: Outcome)
    requires Enabled(c, st) && Settled(c, k, outcome)
    ensures Settled(Next(c, st), k, outcome)
  {
  }

  ghost predicate SettledIn(s: System, sid: Sid, k: Ref, outcome: Outcome) {
    sid in s.conns && Settled(s.conns[sid], k, outcome)
  }

  lemma EventKeepsSettled(s: System, e: Event, n: System, sid: Sid, k: Ref, outcome: Outcome)
    requires Possible(s, e) && n == Apply(s, e) && SettledIn(s, sid, k, outcome)
    ensures SettledIn(n, sid, k, outcome)
  {
    SameConn(s, e, sid);
    ConnAfter(s, e, sid);
    FollowsSettled(s.conns[sid], e, n.conns[sid], k, outcome);
  }

  lemma SameConn(s: System, e: Event, sid: Sid)
    requires Possible(s, e) && sid in s.conns
    ensures sid in Apply(s, e).conns
    ensures e.Dispatch? && Apply(s, e).conns[sid] != s.conns[sid] ==> e.call !in s.conns[sid].desk.calls
  {
  }

  lemma FollowsSettled(c: Conn, e: Event, n: Conn, k: Ref, outcome: Outcome)
    requires Settled(c, k, outcome) && Follows(c, e, n) && (e.Dispatch? && n != c ==> e.call !in c.desk.calls)
    ensures Settled(n, k, outcome)
  {
    if e.Within? && Enabled(c, e.step) && n == Next(c, e.step) {
      StepKeepsSettled(c, e.step, k, outcome);
    }
  }

  lemma RunStep(run: seq<System>, events: seq<Event>, i: nat)
    requires IsRun(run, events) && i < |events|
    ensures i + 1 < |run| && Possible(run[i], events[i]) && run[i + 1] == Apply(run[i], events[i])
  {
  }

  lemma NextSettled(run: seq<System>, events: seq<Event>, i: nat, sid: Sid, k: Ref, outcome: Outcome)
    requires IsRun(run, events) && i < |events| && SettledIn(run[i], sid, k, outcome)
    ensures SettledIn(run[i + 1], sid, k, outcome)
  {
    RunStep(run, events, i);
    EventKeepsSettled(run[i], events[i], run[i + 1], sid, k, outcome);
  }

  lemma {:induction false} SettledForGood(run: seq<System>, events: seq<Event>, i: nat, j: nat, sid: Sid, k: Ref,
                                          outcome: Outcome)
    requires IsRun(run, events) && i <= j < |run| && SettledIn(run[i], sid, k, outcome)
    ensures SettledIn(run[j], sid, k, outcome)
    decreases j - i
  {
    if i < j {
      NextSettled(run, events, i, sid, k, outcome);
      SettledForGood(run, events, i + 1, j, sid, k, outcome);
    }
  }

  /** A call that takes a success for its ID returns its payload, one that takes a failure returns its message,
      and one that is hung up on returns that the connection is closed; nothing changes that afterwards, and
      returning is always possible. */
  lemma TakenIsReturned(run: seq<System>, events: seq<Event>, i: nat, j: nat, sid: Sid, k: Ref)
    requires IsRun(run, events) && i < j < |run| && i < |events| && events[i] == Within(sid, OnCall(k, Take))
    ensures sid in run[i].conns && k in run[i].conns[sid].desk.calls
    ensures var taken := run[i].conns[sid].desk.calls[k].waiter;
            && taken.Some? && sid in run[j].conns
            && match taken.value
               case Answer(Result(_, Success(payload))) => Settled(run[j].conns[sid], k, Ok(payload))
               case Answer(Result(_, Failure(m))) => Settled(run[j].conns[sid], k, Err(Remote(m)))
               case Hangup => Settled(run[j].conns[sid], k, Err(ConnectionClosed))
  {
    var c := run[i].conns[sid];
    var taken := c.desk.calls[k].waiter.value;
    var outcome := match taken
      case Answer(Result(_, Success(payload))) => Ok(payload)
      case Answer(Result(_, Failure(m))) => Err(Remote(m))
      case Hangup => Err(ConnectionClosed);
    assert Settled(Next(c, OnCall(k, Take)), k, outcome);
    assert SettledIn(run[i + 1], sid, k, outcome);
    SettledForGood(run, events, i + 1, j, sid, k, outcome);
  }

  /** A call that has its outcome can return it at once. */
  lemma SettledCanReturn(run: seq<System>, events: seq<Event>, i: nat, sid: Sid, k: Ref, outcome: Outcome)
    requires IsRun(run, events) && i < |run| && sid in run[i].conns && k in run[i].conns[sid].desk.calls
    requires run[i].conns[sid].desk.calls[k].state == Finishing(outcome)
    ensures Possible(run[i], Within(sid, OnCall(k, Finish)))
    ensures Next(run[i].conns[sid], OnCall(k, Finish)).desk.calls[k].state == Returned(outcome)
  {
    RunConnIsSafe(run, events, i, sid);
    assert CallOk(run[i].conns[sid].desk, k, run[i].conns[sid].done, run[i].conns[sid].loop);
  }

  // ---------------------------------------------------------------- nothing stands in the way

  /** The steps are possible one after the other and lead there. */
  ghost predicate Leads(c: Conn, steps: seq<Step>, n: Conn)
    decreases |steps|
  {
    if steps == [] then n == c else Enabled(c, steps[0]) && Leads(Next(c, steps[0]), steps[1..], n)
  }

  lemma LeadsTwo(c: Conn, a: Step, b: Step)
    requires Enabled(c, a) && Enabled(Next(c, a), b)
    ensures Leads(c, [a, b], Next(Next(c, a), b))
  {
    assert [a, b][1..] == [b] && [b][1..] == [];
    assert Leads(Next(Next(c, a), b), [], Next(Next(c, a), b));
    assert Leads(Next(c, a), [b], Next(Next(c, a), b));
  }

  lemma {:induction false} LeadsOn(c: Conn, steps: seq<Step>, n: Conn, more: seq<Step>, m: Conn)
    requires Leads(c, steps, n) && Leads(n, more, m)
    ensures Leads(c, steps + more, m)
    decreases |steps|
  {
    if steps == [] {
      assert steps + more == more;
    } else {
      LeadsOn(Next(c, steps[0]), steps[1..], n, more, m);
      assert (steps + more)[1..] == steps[1..] + more;
    }
  }

  lemma CommandGoesOut(c: Conn, k: Ref, id: Id) returns (n: Conn)
    requires k in c.desk.calls && c.desk.calls[k].state.Found? && c.desk.calls[k].command.kind in c.allowed
    requires id !in c.desk.issued && id !in c.hub.minted
    ensures Leads(c, [OnCall(k, Register(id)), OnCall(k, Send)], n)
    ensures k in n.desk.calls && n.desk.calls[k] == Call(c.desk.calls[k].command, Waiting, Some(id), None)
    ensures id in n.desk.pending && n.desk.pending[id] == k
    ensures n.down == c.down + [Execute(id, c.desk.calls[k].command)]
    ensures n.up == c.up && n.loop == c.loop && n.agent == c.agent
  {
    LeadsTwo(c, OnCall(k, Register(id)), OnCall(k, Send));
    n := Next(Next(c, OnCall(k, Register(id))), OnCall(k, Send));
  }

  lemma CommandIsAnswered(c: Conn, id: Id, command: Command, reply: Reply) returns (n: Conn)
    requires c.down == [Execute(id, command)]
    ensures Leads(c, [OnAgent(Handle), OnAgent(Answered(id, reply))], n)
    ensures n.down == [] && n.up == c.up + [CommandResult(Result(id, reply))]
    ensures id in n.agent.produced && n.agent.produced[id] == Execution(command, reply)
    ensures n.desk == c.desk && n.loop == c.loop && n.hub == c.hub
  {
    LeadsTwo(c, OnAgent(Handle), OnAgent(Answered(id, reply)));
    n := Next(Next(c, OnAgent(Handle)), OnAgent(Answered(id, reply)));
  }

  lemma ResultArrives(c: Conn, k: Ref, r: Result) returns (n: Conn)
    requires c.loop.Reading? && c.up == [CommandResult(r)] && r.id in c.desk.pending && c.desk.pending[r.id] == k
    requires k in c.desk.calls && c.desk.calls[k].waiter.None?
    ensures Leads(c, [OnLoop(ReadResult), OnLoop(Deliver)], n)
    ensures k in n.desk.calls && n.desk.calls[k] == c.desk.calls[k].(waiter := Some(Answer(r)))
    ensures n.up == [] && n.loop == Reading && n.down == c.down && n.desk.received == c.desk.received + [r]
  {
    LeadsTwo(c, OnLoop(ReadResult), OnLoop(Deliver));
    n := Next(Next(c, OnLoop(ReadResult)), OnLoop(Deliver));
  }

  function ReplyOutcome(reply: Reply): Outcome {
    match reply
    case Success(payload) => Ok(payload)
    case Failure(m) => Err(Remote(m))
  }

  lemma ResultIsReturned(c: Conn, k: Ref, r: Result) returns (n: Conn)
    requires k in c.desk.calls && c.desk.calls[k].state.Waiting? && c.desk.calls[k].id.Some?
    requires c.desk.calls[k].waiter == Some(Answer(r))
    ensures Leads(c, [OnCall(k, Take), OnCall(k, Finish)], n)
    ensures k in n.desk.calls && n.desk.calls[k].state == Returned(ReplyOutcome(r.reply))
    ensures n.up == c.up && n.down == c.down && n.loop == c.loop
  {
    LeadsTwo(c, OnCall(k, Take), OnCall(k, Finish));
    n := Next(Next(c, OnCall(k, Take)), OnCall(k, Finish));
  }

  /** On a quiet connection an allowed command reaches the Agent as it was given, and whatever reply the
      handler makes comes back to that very call. */
  lemma AnswerComesBack(c: Conn, k: Ref, id: Id, reply: Reply) returns (n: Conn)
    requires k in c.desk.calls && c.desk.calls[k].state.Found? && c.desk.calls[k].command.kind in c.allowed
    requires id !in c.desk.issued && id !in c.hub.minted
    requires c.loop.Reading? && c.up == [] && c.down == []
    ensures Leads(c, [OnCall(k, Register(id)), OnCall(k, Send), OnAgent(Handle), OnAgent(Answered(id, reply)),
                      OnLoop(ReadResult), OnLoop(Deliver), OnCall(k, Take), OnCall(k, Finish)], n)
    ensures k in n.desk.calls && n.desk.calls[k].state == Returned(ReplyOutcome(reply))
    ensures n.up == [] && n.down == [] && n.loop.Reading?
  {
    var out := CommandGoesOut(c, k, id);
    var answered := CommandIsAnswered(out, id, c.desk.calls[k].command, reply);
    var arrived := ResultArrives(answered, k, Result(id, reply));
    n := ResultIsReturned(arrived, k, Result(id, reply));
    LeadsOn(arrived, [], arrived, [OnCall(k, Take), OnCall(k, Finish)], n);
    LeadsOn(answered, [OnLoop(ReadResult), OnLoop(Deliver)], arrived, [OnCall(k, Take), OnCall(k, Finish)], n);
    var tail := [OnLoop(ReadResult), OnLoop(Deliver)] + [OnCall(k, Take), OnCall(k, Finish)];
    LeadsOn(out, [OnAgent(Handle), OnAgent(Answered(id, reply))], answered, tail, n);
    LeadsOn(c, [OnCall(k, Register(id)), OnCall(k, Send)], out,
            [OnAgent(Handle), OnAgent(Answered(id, reply))] + tail, n);
    assert [OnCall(k, Register(id)), OnCall(k, Send)] + ([OnAgent(Handle), OnAgent(Answered(id, reply))] + tail)
        == [OnCall(k, Register(id)), OnCall(k, Send), OnAgent(Handle), OnAgent(Answered(id, reply)),
            OnLoop(ReadResult), OnLoop(Deliver), OnCall(k, Take), OnCall(k, Finish)];
  }

  lemma SubscriptionGoesOut(c: Conn, u: Ref, id: Id) returns (n: Conn)
    requires u in c.hub.subs && c.hub.subs[u].state.Located? && c.hub.subs[u].kind in c.allowed && !c.done
    requires id !in c.desk.issued && id !in c.hub.minted
    ensures Leads(c, [OnSub(u, Attach(id)), OnSub(u, Ask)], n)
    ensures u in n.hub.subs && n.hub.subs[u] == Sub(c.hub.subs[u].kind, Running, Some(id), [], [], [])
    ensures id in n.hub.streams && n.hub.streams[id] == u
    ensures n.down == c.down + [Subscribe(id, c.hub.subs[u].kind)]
    ensures n.up == c.up && n.loop == c.loop && n.agent == c.agent
  {
    LeadsTwo(c, OnSub(u, Attach(id)), OnSub(u, Ask));
    n := Next(Next(c, OnSub(u, Attach(id))), OnSub(u, Ask));
  }

  /** What the Agent emits is put on the wire as it is, under the next number. */
  lemma DataIsSent(c: Conn, id: Id, data: Bytes)
    requires id in c.agent.feeds && !c.agent.feeds[id].ended
    ensures Enabled(c, OnAgent(Emit(id, data)))
    ensures var n := Next(c, OnAgent(Emit(id, data)));
            var chunk := Chunk(id, c.agent.feeds[id].sequence + 1, data, false);
            n.up == c.up + [StreamChunk(chunk)] && Wire(n.agent.wire, id) == Wire(c.agent.wire, id) + [chunk]
  {
  }

  lemma ChunkArrives(c: Conn, u: Ref, chunk: Chunk) returns (n: Conn)
    requires c.loop.Reading? && c.up != [] && c.up[0] == StreamChunk(chunk)
    requires chunk.stream in c.hub.streams && c.hub.streams[chunk.stream] == u
    requires u in c.hub.subs && |c.hub.subs[u].buffer| < STREAM_BUFFER
    ensures Leads(c, [OnLoop(ReadChunk), OnLoop(Forward)], n)
    ensures u in n.hub.subs && n.hub.subs[u] == c.hub.subs[u].(buffer := c.hub.subs[u].buffer + [chunk])
    ensures n.loop == Reading && n.up == c.up[1..]
  {
    LeadsTwo(c, OnLoop(ReadChunk), OnLoop(Forward));
    n := Next(Next(c, OnLoop(ReadChunk)), OnLoop(Forward));
  }

  /** A running subscription with something in its buffer can hand exactly that over and run on. */
  lemma ChunkIsHanded(c: Conn, u: Ref) returns (n: Conn)
    requires u in c.hub.subs && c.hub.subs[u].state.Running?
    requires c.hub.subs[u].buffer != [] && !c.hub.subs[u].buffer[0].eof
    ensures Leads(c, [OnSub(u, Receive), OnSub(u, Output)], n)
    ensures u in n.hub.subs && n.hub.subs[u].state.Running?
    ensures n.hub.subs[u].output == c.hub.subs[u].output + [c.hub.subs[u].buffer[0].data]
    ensures n.hub.subs[u].buffer == c.hub.subs[u].buffer[1..]
  {
    LeadsTwo(c, OnSub(u, Receive), OnSub(u, Output));
    n := Next(Next(c, OnSub(u, Receive)), OnSub(u, Output));
  }

  /** Whenever the manager lock is free an Agent can register: its session is then the listed one, open, and
      the one that was listed before is closed. */
  lemma AgentRegisters(s: System, t: Tid, sid: Sid, server: string, allowed: set<string>)
    requires MapOk(s) && s.lock.None? && t !in s.tasks && sid !in s.conns
    ensures Possible(s, Hello(t, sid, server, allowed))
    ensures var u := Apply(s, Hello(t, sid, server, allowed));
            && Possible(u, Publish(t))
            && var v := Apply(u, Publish(t));
               && v.lock.None? && server in v.sessions && v.sessions[server] == sid
               && sid in v.conns && !v.conns[sid].done && v.conns[sid].allowed == allowed
               && (server in s.sessions ==> s.sessions[server] in v.conns && v.conns[s.sessions[server]].done)
               && (forall other :: other != server ==> (other in v.sessions <==> other in s.sessions))
  {
  }

  /** Disconnecting a server takes its session out and leaves a goroutine that can close it at once. */
  lemma ServerDisconnects(s: System, t: Tid, server: string)
    requires MapOk(s) && s.lock.None? && t !in s.tasks && server in s.sessions
    ensures Possible(s, Disconnect(t, server))
    ensures var u := Apply(s, Disconnect(t, server));
            && server !in u.sessions && Possible(u, CloseSession(t))
            && Apply(u, CloseSession(t)).conns[s.sessions[server]].done
  {
  }

  /** A call or a subscription for a listed server starts at once, with nothing done yet. */
  lemma ListedServerIsReached(s: System, server: string, k: Ref, command: Command, u: Ref, kind: string)
    requires MapOk(s) && s.lock.None? && server in s.sessions
    requires k !in s.conns[s.sessions[server]].desk.calls && u !in s.conns[s.sessions[server]].hub.subs
    ensures Possible(s, Dispatch(server, k, command)) && Possible(s, Watch(server, u, kind))
    ensures var c := Apply(s, Dispatch(server, k, command)).conns[s.sessions[server]];
            k in c.desk.calls && c.desk.calls[k] == Call(command, Found, None, None)
    ensures var c := Apply(s, Watch(server, u, kind)).conns[s.sessions[server]];
            u in c.hub.subs && c.hub.subs[u] == Sub(kind, Located, None, [], [], [])
  {
  }

  /** A waiting call can always be given up, and returns that its context is done. */
  lemma CallCanBeGivenUp(c: Conn, k: Ref) returns (n: Conn)
    requires k in c.desk.calls && c.desk.calls[k].state.Waiting? && c.desk.calls[k].id.Some?
    ensures Leads(c, [OnCall(k, Abort(ContextDone)), OnCall(k, Finish)], n)
    ensures k in n.desk.calls && n.desk.calls[k].state == Returned(Err(ContextDone))
    ensures c.desk.calls[k].id.value !in n.desk.pending
  {
    LeadsTwo(c, OnCall(k, Abort(ContextDone)), OnCall(k, Finish));
    n := Next(Next(c, OnCall(k, Abort(ContextDone))), OnCall(k, Finish));
  }

  /** A subscription can always be left: it is taken out of the map and, if there is room, cancelled at the
      Agent, which then knows. */
  lemma SubscriptionCanBeLeft(c: Conn, u: Ref) returns (n: Conn)
    requires u in c.hub.subs && c.hub.subs[u].state.Running? && c.hub.subs[u].id.Some? && c.down == []
    ensures Leads(c, [OnSub(u, Quit), OnSub(u, Remove), OnSub(u, Farewell(true)), OnAgent(Handle)], n)
    ensures u in n.hub.subs && n.hub.subs[u].state.Ended? && n.hub.subs[u].output == c.hub.subs[u].output
    ensures c.hub.subs[u].id.value !in n.hub.streams && n.down == []
    ensures var id := c.hub.subs[u].id.value;
            id in c.agent.feeds ==> id in n.agent.feeds && n.agent.feeds[id].cancelled
  {
    LeadsTwo(c, OnSub(u, Quit), OnSub(u, Remove));
    var left := Next(Next(c, OnSub(u, Quit)), OnSub(u, Remove));
    LeadsTwo(left, OnSub(u, Farewell(true)), OnAgent(Handle));
    n := Next(Next(left, OnSub(u, Farewell(true))), OnAgent(Handle));
    LeadsOn(c, [OnSub(u, Quit), OnSub(u, Remove)], left, [OnSub(u, Farewell(true)), OnAgent(Handle)], n);
    assert [OnSub(u, Quit), OnSub(u, Remove)] + [OnSub(u, Farewell(true)), OnAgent(Handle)]
        == [OnSub(u, Quit), OnSub(u, Remove), OnSub(u, Farewell(true)), OnAgent(Handle)];
  }

  /** The end of a stream is a chunk of its own, after which nothing more is sent. */
  lemma EndIsSent(c: Conn, id: Id)
    requires id in c.agent.feeds && !c.agent.feeds[id].ended
    ensures Enabled(c, OnAgent(EndOfStream(id)))
    ensures var n := Next(c, OnAgent(EndOfStream(id)));
            && n.up == c.up + [StreamChunk(Chunk(id, c.agent.feeds[id].sequence + 1, [], true))]
            && n.agent.feeds[id].ended && forall data :: !Enabled(n, OnAgent(Emit(id, data)))
  {
  }
}
