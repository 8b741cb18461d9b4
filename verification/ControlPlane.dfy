/**
  The Core manager over all connections: register, unregister, Disconnect and the lookups of
  Dispatch and Subscribe, interleaved with every step inside every connection.  The manager lock is
  explicit, because register holds it while it closes the session it replaces; unregister and
  Disconnect release it before they close.
*/
module ControlPlane {
  import opened Options
  import opened Sessions
  import opened SessionSafety

  type Sid = nat
  type Tid = nat

  /** A goroutine inside register, Connect, unregister or Disconnect, by what it does next. */
  datatype Task =
    | Registering(session: Sid)  // holds the manager lock; next publishes the session
    | Serving(session: Sid)      // Connect's receive loop; next unregisters once the loop stopped
    | Closing(session: Sid)      // has dropped the lock; next closes the session
    | Idle

  datatype System = System(sessions: map<string, Sid>, lock: Option<Tid>, conns: map<Sid, Conn>, tasks: map<Tid, Task>)

  const INITIAL := System(map[], None, map[], map[])

  datatype Event =
    | Hello(task: Tid, session: Sid, server: string, allowed: set<string>)
    | Publish(task: Tid)
    | Unregister(task: Tid)
    | Disconnect(task: Tid, server: string)
    | CloseSession(task: Tid)
    | Dispatch(server: string, call: Ref, command: Command)
    | Watch(server: string, sub: Ref, kind: string)
    | Within(session: Sid, step: Step)

  predicate Possible(s: System, e: Event) {
    match e
    case Hello(t, sid, _, _) => s.lock.None? && t !in s.tasks && sid !in s.conns
    case Publish(t) => t in s.tasks && s.tasks[t].Registering? && s.tasks[t].session in s.conns
    case Unregister(t) =>
      s.lock.None? && t in s.tasks && s.tasks[t].Serving? && s.tasks[t].session in s.conns
      && s.conns[s.tasks[t].session].loop.Stopped?
    case Disconnect(t, _) => s.lock.None? && t !in s.tasks
    case CloseSession(t) => t in s.tasks && s.tasks[t].Closing? && s.tasks[t].session in s.conns
    case Dispatch(server, k, _) =>
      s.lock.None? && server in s.sessions && s.sessions[server] in s.conns
      && k !in s.conns[s.sessions[server]].desk.calls
    case Watch(server, u, _) =>
      s.lock.None? && server in s.sessions && s.sessions[server] in s.conns
      && u !in s.conns[s.sessions[server]].hub.subs
    case Within(sid, st) => sid in s.conns && Enabled(s.conns[sid], st)
  }

  function SetConn(s: System, sid: Sid, c: Conn): System {
    s.(conns := s.conns[sid := c])
  }

  /** The session of a server, closed under the manager lock before it is replaced. */
  function ClosePrevious(s: System, server: string): System {
    if server in s.sessions && s.sessions[server] in s.conns
    then SetConn(s, s.sessions[server], Close(s.conns[s.sessions[server]]))
    else s
  }

  function Apply(s: System, e: Event): System
    requires Possible(s, e)
  {
    match e
    case Hello(t, sid, server, allowed) =>
      var r := ClosePrevious(s, server);
      r.(lock := Some(t), conns := r.conns[sid := NewConn(server, allowed)], tasks := s.tasks[t := Registering(sid)])
    case Publish(t) =>
      var sid := s.tasks[t].session;
      s.(sessions := s.sessions[s.conns[sid].server := sid], lock := None, tasks := s.tasks[t := Serving(sid)])
    case Unregister(t) =>
      var sid := s.tasks[t].session;
      var server := s.conns[sid].server;
      s.(sessions := if server in s.sessions && s.sessions[server] == sid then s.sessions - {server} else s.sessions,
         tasks := s.tasks[t := Closing(sid)])
    case Disconnect(t, server) =>
      s.(sessions := s.sessions - {server},
         tasks := s.tasks[t := if server in s.sessions then Closing(s.sessions[server]) else Idle])
    case CloseSession(t) =>
      var sid := s.tasks[t].session;
      SetConn(s, sid, Close(s.conns[sid])).(tasks := s.tasks[t := Idle])
    case Dispatch(server, k, command) =>
      SetConn(s, s.sessions[server], StartCall(s.conns[s.sessions[server]], k, command))
    case Watch(server, u, kind) =>
      SetConn(s, s.sessions[server], StartSub(s.conns[s.sessions[server]], u, kind))
    case Within(sid, st) => SetConn(s, sid, Next(s.conns[sid], st))
  }

  // ---------------------------------------------------------------- invariant

  ghost predicate ConnsOk(s: System) {
    forall sid :: sid in s.conns ==> Inv(s.conns[sid])
  }

  predicate BeingReplaced(s: System, server: string) {
    s.lock.Some? && s.lock.value in s.tasks && s.tasks[s.lock.value].Registering?
    && s.tasks[s.lock.value].session in s.conns && s.conns[s.tasks[s.lock.value].session].server == server
  }

  /** The map holds sessions under their own server; a session in it is closed only while its
      replacement, still holding the lock, is about to be published. */
  ghost predicate MapOk(s: System) {
    forall server :: server in s.sessions ==>
      && s.sessions[server] in s.conns
      && s.conns[s.sessions[server]].server == server
      && (s.conns[s.sessions[server]].done <==> BeingReplaced(s, server))
  }

  ghost predicate TasksOk(s: System) {
    && (forall t :: t in s.tasks ==> (s.lock == Some(t) <==> s.tasks[t].Registering?))
    && (s.lock.Some? ==> s.lock.value in s.tasks)
    && (forall t :: t in s.tasks && !s.tasks[t].Idle? ==> s.tasks[t].session in s.conns)
    && (forall t :: t in s.tasks && s.tasks[t].Registering? ==> !s.conns[s.tasks[t].session].done)
    && (forall t, server :: t in s.tasks && server in s.sessions && (s.tasks[t].Closing? || s.tasks[t].Registering?) ==>
          s.sessions[server] != s.tasks[t].session)
    && (forall t, u :: t in s.tasks && u in s.tasks && t != u && s.tasks[t].Registering? && !s.tasks[u].Idle? ==>
          s.tasks[t].session != s.tasks[u].session)
  }

  predicate Listed(s: System, sid: Sid) {
    sid in s.conns && s.conns[sid].server in s.sessions && s.sessions[s.conns[sid].server] == sid
  }

  predicate Holds(task: Task, sid: Sid) {
    task == Closing(sid) || task == Registering(sid)
  }

  ghost predicate Accounted(s: System, sid: Sid) {
    Listed(s, sid) || exists t :: t in s.tasks && Holds(s.tasks[t], sid)
  }

  ghost predicate OpenOk(s: System) {
    forall sid :: sid in s.conns && !s.conns[sid].done ==> Accounted(s, sid)
  }

  ghost predicate Safe(s: System) {
    ConnsOk(s) && MapOk(s) && TasksOk(s) && OpenOk(s)
  }

  // ---------------------------------------------------------------- preservation

  lemma NewConnOk(server: string, allowed: set<string>)
    ensures Inv(NewConn(server, allowed))
  {
  }

  /** Only close sets `done`, and no step changes what the session is for. */
  lemma StepKeepsIdentity(c: Conn, st: Step)
    requires Enabled(c, st)
    ensures Next(c, st).server == c.server && Next(c, st).done == c.done && Next(c, st).allowed == c.allowed
  {
  }

  lemma SetKeepsConns(s: System, sid: Sid, c: Conn)
    requires ConnsOk(s) && Inv(c)
    ensures ConnsOk(SetConn(s, sid, c))
  {
  }

  /** Only the connections matter. */
  lemma SameConns(s: System, n: System)
    requires ConnsOk(s) && n.conns == s.conns
    ensures ConnsOk(n)
  {
  }

  lemma PreviousKeepsConns(s: System, server: string)
    requires ConnsOk(s)
    ensures ConnsOk(ClosePrevious(s, server))
  {
    if server in s.sessions && s.sessions[server] in s.conns {
      CloseKeepsInv(s.conns[s.sessions[server]]);
      SetKeepsConns(s, s.sessions[server], Close(s.conns[s.sessions[server]]));
    }
  }

  lemma HelloKeepsConns(s: System, e: Event)
    requires ConnsOk(s) && Possible(s, e) && e.Hello?
    ensures ConnsOk(Apply(s, e))
  {
    NewConnOk(e.server, e.allowed);
    PreviousKeepsConns(s, e.server);
    var n := SetConn(ClosePrevious(s, e.server), e.session, NewConn(e.server, e.allowed));
    SetKeepsConns(ClosePrevious(s, e.server), e.session, NewConn(e.server, e.allowed));
    SameConns(n, Apply(s, e));
  }

  lemma CloseKeepsConns(s: System, e: Event)
    requires ConnsOk(s) && Possible(s, e) && e.CloseSession?
    ensures ConnsOk(Apply(s, e))
  {
    var sid := s.tasks[e.task].session;
    CloseKeepsInv(s.conns[sid]);
    SetKeepsConns(s, sid, Close(s.conns[sid]));
    SameConns(SetConn(s, sid, Close(s.conns[sid])), Apply(s, e));
  }

  lemma InnerEventKeepsConns(s: System, e: Event)
    requires ConnsOk(s) && Possible(s, e) && (e.Dispatch? || e.Watch? || e.Within?)
    ensures ConnsOk(Apply(s, e))
  {
    match e
    case Dispatch(server, k, command) =>
      StartCallKeepsInv(s.conns[s.sessions[server]], k, command);
      SetKeepsConns(s, s.sessions[server], StartCall(s.conns[s.sessions[server]], k, command));
    case Watch(server, u, kind) =>
      StartSubKeepsInv(s.conns[s.sessions[server]], u, kind);
      SetKeepsConns(s, s.sessions[server], StartSub(s.conns[s.sessions[server]], u, kind));
    case Within(sid, st) =>
      StepKeepsInv(s.conns[sid], st);
      SetKeepsConns(s, sid, Next(s.conns[sid], st));
    case _ =>
  }

  /** What a connection event leaves alone, as seen by the manager. */
  ghost predicate SameShape(s: System, n: System) {
    && n.sessions == s.sessions && n.lock == s.lock && n.tasks == s.tasks && n.conns.Keys == s.conns.Keys
    && forall sid :: sid in s.conns ==>
         n.conns[sid].server == s.conns[sid].server && n.conns[sid].done == s.conns[sid].done
  }

  lemma InnerEventKeepsShape(s: System, e: Event)
    requires Possible(s, e) && (e.Dispatch? || e.Watch? || e.Within?)
    ensures SameShape(s, Apply(s, e))
  {
    if e.Within? {
      StepKeepsIdentity(s.conns[e.session], e.step);
    }
  }

  lemma SameShapeKeepsManager(s: System, n: System)
    requires SameShape(s, n) && MapOk(s) && TasksOk(s) && OpenOk(s)
    ensures MapOk(n) && TasksOk(n) && OpenOk(n)
  {
    forall sid | sid in n.conns && !n.conns[sid].done ensures Accounted(n, sid) {
      assert Accounted(s, sid);
    }
    forall server | server in n.sessions
      ensures n.sessions[server] in n.conns && n.conns[n.sessions[server]].server == server
      ensures n.conns[n.sessions[server]].done <==> BeingReplaced(n, server)
    {
      assert s.sessions[server] in s.conns;
    }
  }

  lemma HelloKeepsMap(s: System, e: Event)
    requires MapOk(s) && Possible(s, e) && e.Hello?
    ensures MapOk(Apply(s, e))
  {
  }

  lemma HelloKeepsTasks(s: System, e: Event)
    requires MapOk(s) && TasksOk(s) && Possible(s, e) && e.Hello?
    ensures TasksOk(Apply(s, e))
  {
  }

  lemma HelloKeepsOpen(s: System, e: Event)
    requires OpenOk(s) && Possible(s, e) && e.Hello?
    ensures OpenOk(Apply(s, e))
  {
    var n := Apply(s, e);
    forall sid | sid in n.conns && !n.conns[sid].done ensures Accounted(n, sid) {
      if sid == e.session {
        assert Holds(n.tasks[e.task], sid);
      } else {
        assert Accounted(s, sid);
        if !Listed(s, sid) {
          var t :| t in s.tasks && Holds(s.tasks[t], sid);
          assert Holds(n.tasks[t], sid);
        }
      }
    }
  }

  lemma HelloKeepsManager(s: System, e: Event)
    requires MapOk(s) && TasksOk(s) && OpenOk(s) && Possible(s, e) && e.Hello?
    ensures MapOk(Apply(s, e)) && TasksOk(Apply(s, e)) && OpenOk(Apply(s, e))
  {
    HelloKeepsMap(s, e);
    HelloKeepsTasks(s, e);
    HelloKeepsOpen(s, e);
  }

  lemma PublishKeepsManager(s: System, e: Event)
    requires MapOk(s) && TasksOk(s) && OpenOk(s) && Possible(s, e) && e.Publish?
    ensures MapOk(Apply(s, e)) && TasksOk(Apply(s, e)) && OpenOk(Apply(s, e))
  {
    var n := Apply(s, e);
    var fresher := s.tasks[e.task].session;
    var server := s.conns[fresher].server;
    assert BeingReplaced(s, server);
    forall sid | sid in n.conns && !n.conns[sid].done ensures Accounted(n, sid) {
      assert Accounted(s, sid);
      if sid == fresher {
        assert Listed(n, sid);
      } else if Listed(s, sid) {
        assert s.conns[sid].server != server;
      } else {
        var t :| t in s.tasks && Holds(s.tasks[t], sid);
        assert Holds(n.tasks[t], sid);
      }
    }
  }

  lemma RemovalKeepsOpen(s: System, e: Event)
    requires OpenOk(s) && TasksOk(s) && Possible(s, e) && (e.Unregister? || e.Disconnect?)
    ensures OpenOk(Apply(s, e))
  {
    var n := Apply(s, e);
    forall sid | sid in n.conns && !n.conns[sid].done ensures Accounted(n, sid) {
      assert Accounted(s, sid);
      if Listed(s, sid) {
        assert Listed(n, sid) || Holds(n.tasks[e.task], sid);
      } else {
        var t :| t in s.tasks && Holds(s.tasks[t], sid);
        assert Holds(n.tasks[t], sid);
      }
    }
  }

  lemma RemovalKeepsManager(s: System, e: Event)
    requires MapOk(s) && TasksOk(s) && OpenOk(s) && Possible(s, e) && (e.Unregister? || e.Disconnect?)
    ensures MapOk(Apply(s, e)) && TasksOk(Apply(s, e)) && OpenOk(Apply(s, e))
  {
    RemovalKeepsOpen(s, e);
  }

  lemma CloseKeepsOpen(s: System, e: Event)
    requires OpenOk(s) && Possible(s, e) && e.CloseSession?
    ensures OpenOk(Apply(s, e))
  {
    var n := Apply(s, e);
    forall sid | sid in n.conns && !n.conns[sid].done ensures Accounted(n, sid) {
      assert Accounted(s, sid);
      if !Listed(s, sid) {
        var t :| t in s.tasks && Holds(s.tasks[t], sid);
        assert Holds(n.tasks[t], sid);
      }
    }
  }

  lemma CloseKeepsManager(s: System, e: Event)
    requires MapOk(s) && TasksOk(s) && OpenOk(s) && Possible(s, e) && e.CloseSession?
    ensures MapOk(Apply(s, e)) && TasksOk(Apply(s, e)) && OpenOk(Apply(s, e))
  {
    CloseKeepsOpen(s, e);
  }

  lemma EventKeepsManager(s: System, e: Event)
    requires MapOk(s) && TasksOk(s) && OpenOk(s) && Possible(s, e)
    ensures MapOk(Apply(s, e)) && TasksOk(Apply(s, e)) && OpenOk(Apply(s, e))
  {
    match e
    case Hello(_, _, _, _) => HelloKeepsManager(s, e);
    case Publish(_) => PublishKeepsManager(s, e);
    case Unregister(_) => RemovalKeepsManager(s, e);
    case Disconnect(_, _) => RemovalKeepsManager(s, e);
    case CloseSession(_) => CloseKeepsManager(s, e);
    case _ =>
      InnerEventKeepsShape(s, e);
      SameShapeKeepsManager(s, Apply(s, e));
  }

  lemma EventKeepsSafe(s: System, e: Event)
    requires Safe(s) && Possible(s, e)
    ensures Safe(Apply(s, e))
  {
    EventKeepsManager(s, e);
    if e.Hello? {
      HelloKeepsConns(s, e);
    } else if e.CloseSession? {
      CloseKeepsConns(s, e);
    } else if e.Dispatch? || e.Watch? || e.Within? {
      InnerEventKeepsConns(s, e);
    }
  }

  // ---------------------------------------------------------------- runs

  ghost predicate IsRun(run: seq<System>, events: seq<Event>) {
    && |run| == |events| + 1
    && run[0] == INITIAL
    && forall i :: 0 <= i < |events| ==> Possible(run[i], events[i]) && run[i + 1] == Apply(run[i], events[i])
  }

  lemma {:induction false} RunIsSafe(run: seq<System>, events: seq<Event>, i: nat)
    requires IsRun(run, events) && i < |run|
    ensures Safe(run[i])
  {
    if i > 0 {
      RunIsSafe(run, events, i - 1);
      EventKeepsSafe(run[i - 1], events[i - 1]);
    }
  }

  lemma RunConnIsSafe(run: seq<System>, events: seq<Event>, i: nat, sid: Sid)
    requires IsRun(run, events) && i < |run| && sid in run[i].conns
    ensures Inv(run[i].conns[sid])
  {
    RunIsSafe(run, events, i);
  }

  /** The session that the holder of the lock is about to publish. */
  predicate BeingRegistered(s: System, sid: Sid) {
    s.lock.Some? && s.lock.value in s.tasks && s.tasks[s.lock.value] == Registering(sid)
  }

  /** A goroutine's next step closes the session. */
  ghost predicate AboutToClose(s: System, sid: Sid) {
    exists t :: t in s.tasks && s.tasks[t] == Closing(sid) && Possible(s, CloseSession(t))
                && sid in Apply(s, CloseSession(t)).conns && Apply(s, CloseSession(t)).conns[sid].done
  }

  lemma OpenIsAboutToClose(s: System, sid: Sid)
    requires OpenOk(s) && TasksOk(s) && sid in s.conns && !s.conns[sid].done
    requires !Listed(s, sid) && !BeingRegistered(s, sid)
    ensures AboutToClose(s, sid)
  {
    assert Accounted(s, sid);
    var t :| t in s.tasks && Holds(s.tasks[t], sid);
    assert s.tasks[t] == Closing(sid) && Possible(s, CloseSession(t));
  }

  /** Whoever holds the manager lock finds only open sessions, each under its own server; in every state
      every other open session is the one being registered or has a goroutine whose next step closes it. */
  lemma VisibleSessionsAreOpen(run: seq<System>, events: seq<Event>, i: nat)
    requires IsRun(run, events) && i < |run|
    ensures var s := run[i];
            && (s.lock.None? ==>
                  forall server :: server in s.sessions ==>
                    && s.sessions[server] in s.conns
                    && s.conns[s.sessions[server]].server == server
                    && !s.conns[s.sessions[server]].done)
            && (forall sid :: sid in s.conns && !s.conns[sid].done && !Listed(s, sid) && !BeingRegistered(s, sid) ==>
                  AboutToClose(s, sid))
  {
    var s := run[i];
    RunIsSafe(run, events, i);
    forall sid | sid in s.conns && !s.conns[sid].done && !Listed(s, sid) && !BeingRegistered(s, sid)
      ensures AboutToClose(s, sid) {
      OpenIsAboutToClose(s, sid);
    }
  }

  predicate Unlists(s: System, e: Event, server: string)
    requires Possible(s, e) && server in s.sessions && s.sessions[server] in s.conns
  {
    || (e.Unregister? && s.tasks[e.task] == Serving(s.sessions[server]))
    || (e.Disconnect? && e.server == server)
    || (e.Publish? && s.conns[s.tasks[e.task].session].server == server && s.conns[s.sessions[server]].done)
  }

  lemma UnlistedByOwner(s: System, e: Event, server: string)
    requires MapOk(s) && TasksOk(s) && Possible(s, e) && server in s.sessions
    ensures Unlists(s, e, server)
            || (server in Apply(s, e).sessions && Apply(s, e).sessions[server] == s.sessions[server])
  {
    if e.Publish? {
      assert BeingReplaced(s, s.conns[s.tasks[e.task].session].server);
    }
  }

  /** A session leaves the map only by its own unregister, by Disconnect of its server, or when a
      newer session of the same server takes its place after closing it; so a stale session's
      unregister never removes its replacement. */
  lemma OnlyOwnerUnlists(run: seq<System>, events: seq<Event>, i: nat, server: string)
    requires IsRun(run, events) && i < |events| && server in run[i].sessions
    ensures run[i].sessions[server] in run[i].conns
    ensures server !in run[i + 1].sessions || run[i + 1].sessions[server] != run[i].sessions[server] ==>
              Unlists(run[i], events[i], server)
  {
    RunIsSafe(run, events, i);
    UnlistedByOwner(run[i], events[i], server);
  }

  /** A Dispatch that returns a payload returns the first result its session received for its
      command ID, and that payload is what the Agent's handler produced for this very command. */
  lemma DispatchReturnsOwnResult(run: seq<System>, events: seq<Event>, i: nat, sid: Sid, k: Ref)
    requires IsRun(run, events) && i < |run| && sid in run[i].conns && k in run[i].conns[sid].desk.calls
    requires run[i].conns[sid].desk.calls[k].state.Returned? && run[i].conns[sid].desk.calls[k].state.outcome.Ok?
    ensures var c := run[i].conns[sid];
            var call := c.desk.calls[k];
            var payload := call.state.outcome.payload;
            && call.id.Some?
            && First(c.desk.received, call.id.value) == Some(Result(call.id.value, Success(payload)))
            && call.id.value in c.agent.produced
            && c.agent.produced[call.id.value] == Execution(call.command, Success(payload))
            && call.command.kind in c.allowed
  {
    RunConnIsSafe(run, events, i, sid);
    var c := run[i].conns[sid];
    assert CallOk(c.desk, k, c.done, c.loop);
    var call := c.desk.calls[k];
    assert Genuine(Result(call.id.value, Success(call.state.outcome.payload)), c.agent.produced);
  }

  lemma StepKeepsAnswers(c: Conn, st: Step, id: Id)
    requires Enabled(c, st) && id in c.agent.produced && id !in c.agent.executing
    ensures var n := Next(c, st); id in n.agent.produced && n.agent.produced[id] == c.agent.produced[id]
  {
  }

  lemma EventKeepsAnswers(s: System, e: Event, sid: Sid, id: Id)
    requires Possible(s, e) && sid in s.conns
    requires id in s.conns[sid].agent.produced && id !in s.conns[sid].agent.executing
    ensures var n := Apply(s, e);
            sid in n.conns && id in n.conns[sid].agent.produced
            && n.conns[sid].agent.produced[id] == s.conns[sid].agent.produced[id]
  {
    if e.Within? && e.session == sid {
      StepKeepsAnswers(s.conns[sid], e.step, id);
    }
  }

  /** The Agent runs each command once: a produced reply is never replaced. */
  lemma AgentAnswersOnce(run: seq<System>, events: seq<Event>, i: nat, sid: Sid, id: Id)
    requires IsRun(run, events) && i < |events| && sid in run[i].conns && id in run[i].conns[sid].agent.produced
    ensures sid in run[i + 1].conns && id in run[i + 1].conns[sid].agent.produced
    ensures run[i + 1].conns[sid].agent.produced[id] == run[i].conns[sid].agent.produced[id]
  {
    RunConnIsSafe(run, events, i, sid);
    EventKeepsAnswers(run[i], events[i], sid, id);
  }

  /** resolve never blocks the receive loop: the delivery is always possible, whatever the waiter holds. */
  lemma DeliveryNeverBlocks(run: seq<System>, events: seq<Event>, i: nat, sid: Sid)
    requires IsRun(run, events) && i < |run| && sid in run[i].conns && run[i].conns[sid].loop.Resolving?
    ensures Possible(run[i], Within(sid, OnLoop(Deliver)))
    ensures Apply(run[i], Within(sid, OnLoop(Deliver))).conns[sid].loop.Reading?
  {
    RunConnIsSafe(run, events, i, sid);
  }

  ghost predicate SeesPrefix(c: Conn, u: Ref)
    requires u in c.hub.subs && c.hub.subs[u].id.Some?
  {
    var output, id := c.hub.subs[u].output, c.hub.subs[u].id.value;
    var chunks := Wire(c.agent.wire, id);
    && |output| <= |chunks|
    && (forall j :: 0 <= j < |output| ==> output[j] == chunks[j].data && !chunks[j].eof)
    && (chunks != [] ==> id in c.agent.feeds)
    && (forall j :: 0 <= j < |chunks| && chunks[j].eof ==> j == |chunks| - 1)
    && (id in c.agent.feeds ==>
          && c.agent.feeds[id].clean <= |chunks|
          && (forall j :: 0 <= j < c.agent.feeds[id].clean ==> chunks[j].sequence == j + 1)
          && (!c.agent.feeds[id].cancelled ==> c.agent.feeds[id].clean == |chunks|))
  }

  lemma PipesShowPrefix(c: Conn, u: Ref)
    requires u in c.hub.subs && c.hub.subs[u].id.Some? && SubOk(c.hub, u, c.done)
    requires PipeOk(c.hub, u, c.loop, c.up, c.agent.wire) && FeedsOk(c.down, c.agent.feeds, c.agent.wire, c.hub.asked)
    ensures SeesPrefix(c, u)
  {
    var sub := c.hub.subs[u];
    var chunks := Wire(c.agent.wire, sub.id.value);
    assert sub.taken <= Arrived(u, sub, c.loop) <= chunks;
    if sub.id.value in c.agent.feeds {
      assert FeedOk(c.agent.feeds[sub.id.value], chunks);
    }
  }

  /** What a subscriber was handed is a gap-free prefix of what the Agent put on the wire for its
      stream; up to cancellation the chunks are numbered 1, 2, 3, ...; end-of-stream comes last and
      is never handed over. */
  lemma SubscriberSeesPrefix(run: seq<System>, events: seq<Event>, i: nat, sid: Sid, u: Ref)
    requires IsRun(run, events) && i < |run| && sid in run[i].conns && u in run[i].conns[sid].hub.subs
    requires run[i].conns[sid].hub.subs[u].id.Some?
    ensures SeesPrefix(run[i].conns[sid], u)
  {
    RunConnIsSafe(run, events, i, sid);
    PipesShowPrefix(run[i].conns[sid], u);
  }

  /** While a subscription is registered nothing sent to it is lost: what it was handed, what it
      holds and what still travels add up to everything on the wire. */
  lemma RegisteredStreamLosesNothing(run: seq<System>, events: seq<Event>, i: nat, sid: Sid, id: Id)
    requires IsRun(run, events) && i < |run| && sid in run[i].conns && id in run[i].conns[sid].hub.streams
    ensures var c := run[i].conns[sid];
            var u := c.hub.streams[id];
            u in c.hub.subs && Arrived(u, c.hub.subs[u], c.loop) + ChunksFor(c.up, id) == Wire(c.agent.wire, id)
  {
    RunConnIsSafe(run, events, i, sid);
    var c := run[i].conns[sid];
    var u := c.hub.streams[id];
    assert StreamsOwned(c.hub);
    assert PipeOk(c.hub, u, c.loop, c.up, c.agent.wire);
  }

  lemma EventKeepsDone(s: System, e: Event, sid: Sid)
    requires Possible(s, e) && sid in s.conns && s.conns[sid].done
    ensures sid in Apply(s, e).conns && Apply(s, e).conns[sid].done
  {
    if e.Within? && e.session == sid {
      StepKeepsIdentity(s.conns[sid], e.step);
    }
  }

  /** A closed session has no registered stream and never gains one. */
  lemma {:induction false} ClosedForGood(run: seq<System>, events: seq<Event>, i: nat, j: nat, sid: Sid)
    requires IsRun(run, events) && i <= j < |run| && sid in run[i].conns && run[i].conns[sid].done
    ensures sid in run[j].conns && run[j].conns[sid].done && run[j].conns[sid].hub.streams == map[]
    decreases j
  {
    if i < j {
      ClosedForGood(run, events, i, j - 1, sid);
      EventKeepsDone(run[j - 1], events[j - 1], sid);
    }
    RunConnIsSafe(run, events, j, sid);
  }

  ghost predicate Drains(c: Conn) {
    && (forall id :: id in c.desk.pending ==>
          && c.desk.pending[id] in c.desk.calls
          && InFlight(c.desk.calls[c.desk.pending[id]].state)
          && (forall k :: k in c.desk.calls && c.desk.calls[k].id == Some(id) ==> k == c.desk.pending[id]))
    && ((forall k :: k in c.desk.calls ==> c.desk.calls[k].state.Returned?) ==> c.desk.pending == map[])
    && ((forall u :: u in c.hub.subs ==> c.hub.subs[u].state.Ended?) ==> c.hub.streams == map[])
  }

  lemma OwnedMapsDrain(c: Conn)
    requires PendingOwned(c.desk) && IdsDistinct(c.desk) && StreamsOwned(c.hub)
    ensures Drains(c)
  {
  }

  /** Every pending ID belongs to exactly one in-flight Dispatch; once every call and every
      subscription has finished, both maps are empty. */
  lemma MapsDrain(run: seq<System>, events: seq<Event>, i: nat, sid: Sid)
    requires IsRun(run, events) && i < |run| && sid in run[i].conns
    ensures Drains(run[i].conns[sid])
  {
    RunConnIsSafe(run, events, i, sid);
    OwnedMapsDrain(run[i].conns[sid]);
  }
}
