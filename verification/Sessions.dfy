/**
  One control-plane connection: the Core session object, the Dispatch and Subscribe calls that
  hold a pointer to it, the single receive loop of its stream, the network in both directions and
  the Agent at the other end.  Each step is one critical section (or one channel operation) of the
  Go code, so a run of this module is an interleaving of its goroutines.

  A waiter or chunk channel is identified by the call that made it: `pending` and `streams` map an
  ID to the call owning the channel stored there, which is what the Go maps hold.  `issued`, `sent`,
  `received`, `minted`, `asked`, `taken` and `wire` are history variables.
*/
module Sessions {
  import opened Options

  type Id = nat
  type Ref = nat
  type Bytes = seq<bv8>

  const STREAM_BUFFER := 64

  // ---------------------------------------------------------------- messages

  datatype Command = Command(kind: string, payload: Bytes)

  datatype Reply = Success(payload: Bytes) | Failure(message: string)

  datatype Result = Result(id: Id, reply: Reply)

  datatype Chunk = Chunk(stream: Id, sequence: nat, data: Bytes, eof: bool)

  datatype CoreMessage =
    | Execute(id: Id, command: Command)
    | Subscribe(id: Id, kind: string)
    | Cancel(id: Id)

  datatype AgentMessage =
    | CommandResult(result: Result)
    | StreamChunk(chunk: Chunk)
    | Notice  // heartbeat, pong, event or task progress

  // ---------------------------------------------------------------- Dispatch calls

  datatype Error = ConnectionClosed | CapabilityAbsent | ContextDone | Remote(message: string)

  datatype Outcome = Ok(payload: Bytes) | Err(error: Error)

  /** What a waiter channel (capacity one) can hold. */
  datatype Delivery = Answer(result: Result) | Hangup

  datatype CallState =
    | Found
    | Registered
    | Waiting
    | Finishing(outcome: Outcome)
    | Returned(outcome: Outcome)

  datatype Call = Call(command: Command, state: CallState, id: Option<Id>, waiter: Option<Delivery>)

  datatype Desk = Desk(calls: map<Ref, Call>, pending: map<Id, Ref>, issued: map<Id, Command>, sent: set<Id>,
                       received: seq<Result>)

  datatype CallAct = Reject | Register(id: Id) | Send | Abort(error: Error) | Take | Finish

  /** What Dispatch returns for what it took from its waiter. */
  function OutcomeOf(d: Delivery): Outcome {
    match d
    case Hangup => Err(ConnectionClosed)
    case Answer(Result(_, Failure(message))) => Err(Remote(message))
    case Answer(Result(_, Success(payload))) => Ok(payload)
  }

  /** A send into a channel of capacity one that never blocks: a full channel keeps what it has. */
  function Offered(slot: Option<Delivery>, d: Delivery): Option<Delivery> {
    if slot.None? then Some(d) else slot
  }

  function Offer(call: Call, d: Delivery): Call {
    call.(waiter := Offered(call.waiter, d))
  }

  predicate CallEnabled(d: Desk, k: Ref, act: CallAct, allowed: set<string>, minted: set<Id>, done: bool) {
    k in d.calls &&
    var call := d.calls[k];
    match act
    case Reject => call.state.Found? && call.command.kind !in allowed
    case Register(id) => call.state.Found? && call.command.kind in allowed && id !in d.issued && id !in minted
    case Send => call.state.Registered? && call.id.Some?
    case Abort(error) =>
      (call.state.Registered? || call.state.Waiting?) &&
      (error.ContextDone? || (error.ConnectionClosed? && done))
    case Take => call.state.Waiting? && call.waiter.Some?
    case Finish => call.state.Finishing? && call.id.Some?
  }

  function CallNext(d: Desk, k: Ref, act: CallAct): Desk
    requires k in d.calls
    requires act.Send? || act.Finish? ==> d.calls[k].id.Some?
    requires act.Take? ==> d.calls[k].waiter.Some?
    requires act.Finish? ==> d.calls[k].state.Finishing?
  {
    var call := d.calls[k];
    match act
    case Reject => d.(calls := d.calls[k := call.(state := Returned(Err(CapabilityAbsent)))])
    case Register(id) =>
      d.(calls := d.calls[k := call.(state := Registered, id := Some(id), waiter := None)],
         pending := d.pending[id := k], issued := d.issued[id := call.command])
    case Send => d.(calls := d.calls[k := call.(state := Waiting)], sent := d.sent + {call.id.value})
    case Abort(error) => d.(calls := d.calls[k := call.(state := Finishing(Err(error)))])
    case Take =>
      d.(calls := d.calls[k := call.(state := Finishing(OutcomeOf(call.waiter.value)), waiter := None)])
    case Finish =>
      d.(calls := d.calls[k := call.(state := Returned(call.state.outcome))], pending := d.pending - {call.id.value})
  }

  /** The pending half of session.close: every waiter is woken, the map is emptied. */
  function CloseDesk(d: Desk): Desk {
    d.(pending := map[],
       calls := map k | k in d.calls :: if k in d.pending.Values then Offer(d.calls[k], Hangup) else d.calls[k])
  }

  // ---------------------------------------------------------------- Subscribe calls

  datatype SubState =
    | Located
    | Attached
    | Running
    | Holding(data: Bytes)
    | Undoing
    | Leaving
    | Detached
    | Ended

  datatype Sub = Sub(kind: string, state: SubState, id: Option<Id>, buffer: seq<Chunk>, taken: seq<Chunk>,
                     output: seq<Bytes>)

  datatype Hub = Hub(subs: map<Ref, Sub>, streams: map<Id, Ref>, minted: set<Id>, asked: set<Id>)

  datatype SubAct =
    Refuse | Attach(id: Id) | Ask | GiveUp | Undo | Receive | Output | Quit | Remove | Farewell(fits: bool)

  predicate SubEnabled(h: Hub, u: Ref, act: SubAct, allowed: set<string>, issued: set<Id>, done: bool) {
    u in h.subs &&
    var sub := h.subs[u];
    match act
    case Refuse => sub.state.Located? && (sub.kind !in allowed || done)
    case Attach(id) => sub.state.Located? && sub.kind in allowed && !done && id !in issued && id !in h.minted
    case Ask => sub.state.Attached? && sub.id.Some?
    case GiveUp => sub.state.Attached?
    case Undo => sub.state.Undoing? && sub.id.Some?
    case Receive => sub.state.Running? && sub.buffer != []
    case Output => sub.state.Holding?
    case Quit => sub.state.Running? || sub.state.Holding?
    case Remove => sub.state.Leaving? && sub.id.Some?
    case Farewell(_) => sub.state.Detached? && sub.id.Some?
  }

  function SubNext(h: Hub, u: Ref, act: SubAct): Hub
    requires u in h.subs
    requires act.Ask? || act.Undo? || act.Remove? ==> h.subs[u].id.Some?
    requires act.Receive? ==> h.subs[u].buffer != []
    requires act.Output? ==> h.subs[u].state.Holding?
  {
    var sub := h.subs[u];
    match act
    case Refuse => h.(subs := h.subs[u := sub.(state := Ended)])
    case Attach(id) =>
      h.(subs := h.subs[u := sub.(state := Attached, id := Some(id), buffer := [], taken := [], output := [])],
         streams := h.streams[id := u], minted := h.minted + {id})
    case Ask => h.(subs := h.subs[u := sub.(state := Running)], asked := h.asked + {sub.id.value})
    case GiveUp => h.(subs := h.subs[u := sub.(state := Undoing)])
    case Undo => h.(subs := h.subs[u := sub.(state := Ended)], streams := h.streams - {sub.id.value})
    case Receive =>
      var chunk := sub.buffer[0];
      h.(subs := h.subs[u := sub.(state := if chunk.eof then Leaving else Holding(chunk.data),
                                  buffer := sub.buffer[1..], taken := sub.taken + [chunk])])
    case Output => h.(subs := h.subs[u := sub.(state := Running, output := sub.output + [sub.state.data])])
    case Quit => h.(subs := h.subs[u := sub.(state := Leaving)])
    case Remove => h.(subs := h.subs[u := sub.(state := Detached)], streams := h.streams - {sub.id.value})
    case Farewell(_) => h.(subs := h.subs[u := sub.(state := Ended)])
  }

  // ---------------------------------------------------------------- the Agent

  datatype Execution = Execution(command: Command, reply: Reply)

  /** `clean` is how many chunks were on the wire when the subscription was cancelled. */
  datatype Feed = Feed(sequence: nat, cancelled: bool, ended: bool, clean: nat)

  datatype Agent = Agent(executing: map<Id, Command>, produced: map<Id, Execution>, feeds: map<Id, Feed>,
                         wire: map<Id, seq<Chunk>>)

  datatype AgentAct =
    | Handle
    | Answered(id: Id, reply: Reply)
    | Resend(id: Id)
    | Abandon(id: Id)
    | Emit(id: Id, data: Bytes)
    | EmitFail(id: Id)
    | EndOfStream(id: Id)
    | Vanish(id: Id)
    | HangUp
    | Chatter

  predicate AgentEnabled(a: Agent, down: seq<CoreMessage>, act: AgentAct) {
    match act
    case Handle => down != []
    case Answered(id, _) => id in a.executing
    case Resend(id) => id in a.produced
    case Abandon(id) => id in a.executing
    case Emit(id, _) => id in a.feeds && !a.feeds[id].ended
    case EmitFail(id) => id in a.feeds && !a.feeds[id].ended && a.feeds[id].cancelled
    case EndOfStream(id) => id in a.feeds && !a.feeds[id].ended
    case Vanish(id) => id in a.feeds && !a.feeds[id].ended && a.feeds[id].cancelled
    case HangUp => true
    case Chatter => true
  }

  /** Everything the Agent has put on the wire for a stream, oldest first. */
  function Wire(wire: map<Id, seq<Chunk>>, id: Id): seq<Chunk> {
    if id in wire then wire[id] else []
  }

  function Handled(a: Agent, m: CoreMessage): Agent {
    match m
    case Execute(id, command) => a.(executing := a.executing[id := command])
    case Subscribe(id, _) => a.(feeds := a.feeds[id := Feed(0, false, false, 0)])
    case Cancel(id) => if id in a.feeds then a.(feeds := a.feeds[id := a.feeds[id].(cancelled := true)]) else a
  }

  function NextChunk(a: Agent, id: Id, data: Bytes, eof: bool): Chunk
    requires id in a.feeds
  {
    Chunk(id, a.feeds[id].sequence + 1, data, eof)
  }

  function Put(a: Agent, id: Id, data: Bytes, eof: bool): Agent
    requires id in a.feeds
  {
    var f := a.feeds[id];
    a.(wire := a.wire[id := Wire(a.wire, id) + [NextChunk(a, id, data, eof)]],
       feeds := a.feeds[id := Feed(f.sequence + 1, f.cancelled, eof, if f.cancelled then f.clean else f.clean + 1)])
  }

  function AgentNext(a: Agent, down: seq<CoreMessage>, act: AgentAct): Agent
    requires AgentEnabled(a, down, act)
  {
    match act
    case Handle => Handled(a, down[0])
    case Answered(id, reply) =>
      a.(executing := a.executing - {id}, produced := a.produced[id := Execution(a.executing[id], reply)])
    case Resend(_) => a
    case Abandon(id) => a.(executing := a.executing - {id})
    case Emit(id, data) => Put(a, id, data, false)
    case EmitFail(id) => a.(feeds := a.feeds[id := a.feeds[id].(sequence := a.feeds[id].sequence + 1)])
    case EndOfStream(id) => Put(a, id, [], true)
    case Vanish(id) => a.(feeds := a.feeds[id := a.feeds[id].(ended := true)])
    case HangUp => a.(feeds := map id | id in a.feeds :: a.feeds[id].(cancelled := true))
    case Chatter => a
  }

  /** The message, if any, that an Agent step puts on the wire. */
  function Transmitted(a: Agent, down: seq<CoreMessage>, act: AgentAct): seq<AgentMessage>
    requires AgentEnabled(a, down, act)
  {
    match act
    case Answered(id, reply) => [CommandResult(Result(id, reply))]
    case Resend(id) => [CommandResult(Result(id, a.produced[id].reply))]
    case Emit(id, data) => [StreamChunk(NextChunk(a, id, data, false))]
    case EndOfStream(id) => [StreamChunk(NextChunk(a, id, [], true))]
    case Chatter => [Notice]
    case _ => []
  }

  // ---------------------------------------------------------------- the connection

  datatype Loop =
    | Reading
    | Resolving(result: Result, to: Ref)
    | Forwarding(chunk: Chunk, to: Ref)
    | Stopped

  datatype Conn = Conn(server: string, allowed: set<string>, done: bool, desk: Desk, hub: Hub, loop: Loop,
                       down: seq<CoreMessage>, up: seq<AgentMessage>, agent: Agent)

  datatype LoopAct = ReadResult | Deliver | ReadChunk | Forward | DropForward | ReadNotice | Stop

  datatype Step =
    | OnCall(call: Ref, callAct: CallAct)    // Manager.Dispatch, after the session was found
    | OnSub(sub: Ref, subAct: SubAct)        // Manager.Subscribe and its goroutine
    | OnLoop(loopAct: LoopAct)               // Server.Connect, the receive loop
    | OnAgent(agentAct: AgentAct)            // StreamClient.connect, execute, runSubscription

  predicate LoopEnabled(c: Conn, act: LoopAct) {
    match act
    case ReadResult => c.loop.Reading? && c.up != [] && c.up[0].CommandResult?
    case Deliver => c.loop.Resolving? && c.loop.to in c.desk.calls
    case ReadChunk => c.loop.Reading? && c.up != [] && c.up[0].StreamChunk?
    case Forward => c.loop.Forwarding? && c.loop.to in c.hub.subs && |c.hub.subs[c.loop.to].buffer| < STREAM_BUFFER
    case DropForward => c.loop.Forwarding? && c.done
    case ReadNotice => c.loop.Reading? && c.up != [] && c.up[0].Notice?
    case Stop => c.loop.Reading?
  }

  predicate Enabled(c: Conn, st: Step) {
    match st
    case OnCall(k, act) => CallEnabled(c.desk, k, act, c.allowed, c.hub.minted, c.done)
    case OnSub(u, act) => SubEnabled(c.hub, u, act, c.allowed, c.desk.issued.Keys, c.done)
    case OnLoop(act) => LoopEnabled(c, act)
    case OnAgent(act) => AgentEnabled(c.agent, c.down, act)
  }

  /** resolve, second half: the result goes into the waiter unless the waiter is full. */
  function DeliverTo(d: Desk, k: Ref, r: Result): Desk
    requires k in d.calls
  {
    d.(calls := d.calls[k := Offer(d.calls[k], Answer(r))])
  }

  function ForwardTo(h: Hub, u: Ref, chunk: Chunk): Hub
    requires u in h.subs
  {
    h.(subs := h.subs[u := h.subs[u].(buffer := h.subs[u].buffer + [chunk])])
  }

  function LoopNext(c: Conn, act: LoopAct): Conn
    requires LoopEnabled(c, act)
  {
    match act
    case ReadResult =>
      var r := c.up[0].result;
      c.(up := c.up[1..], desk := c.desk.(received := c.desk.received + [r]),
         loop := if r.id in c.desk.pending then Resolving(r, c.desk.pending[r.id]) else Reading)
    case Deliver => c.(desk := DeliverTo(c.desk, c.loop.to, c.loop.result), loop := Reading)
    case ReadChunk =>
      var chunk := c.up[0].chunk;
      c.(up := c.up[1..],
         loop := if chunk.stream in c.hub.streams then Forwarding(chunk, c.hub.streams[chunk.stream]) else Reading)
    case Forward => c.(hub := ForwardTo(c.hub, c.loop.to, c.loop.chunk), loop := Reading)
    case DropForward => c.(loop := Reading)
    case ReadNotice => c.(up := c.up[1..])
    case Stop => c.(loop := Stopped)
  }

  function CallMessage(d: Desk, k: Ref, act: CallAct): seq<CoreMessage>
    requires k in d.calls && (act.Send? ==> d.calls[k].id.Some?)
  {
    if act.Send? then [Execute(d.calls[k].id.value, d.calls[k].command)] else []
  }

  function SubMessage(h: Hub, u: Ref, act: SubAct): seq<CoreMessage>
    requires u in h.subs && (act.Ask? || act.Farewell? ==> h.subs[u].id.Some?)
  {
    if act.Ask? then [Subscribe(h.subs[u].id.value, h.subs[u].kind)]
    else if act.Farewell? && act.fits then [Cancel(h.subs[u].id.value)]
    else []
  }

  function Next(c: Conn, st: Step): Conn
    requires Enabled(c, st)
  {
    match st
    case OnCall(k, act) => c.(desk := CallNext(c.desk, k, act), down := c.down + CallMessage(c.desk, k, act))
    case OnSub(u, act) => c.(hub := SubNext(c.hub, u, act), down := c.down + SubMessage(c.hub, u, act))
    case OnLoop(act) => LoopNext(c, act)
    case OnAgent(act) =>
      c.(agent := AgentNext(c.agent, c.down, act), up := c.up + Transmitted(c.agent, c.down, act),
         down := if act.Handle? then c.down[1..] else c.down)
  }

  /** session.close: one-way, wakes every pending waiter, forgets both maps. */
  function Close(c: Conn): (r: Conn)
    ensures r.done
  {
    if c.done then c
    else c.(done := true, desk := CloseDesk(c.desk), hub := c.hub.(streams := map[]))
  }

  function NewConn(server: string, allowed: set<string>): Conn {
    Conn(server, allowed, false, Desk(map[], map[], map[], {}, []), Hub(map[], map[], {}, {}), Reading, [], [],
         Agent(map[], map[], map[], map[]))
  }

  /** Dispatch and Subscribe obtain the session pointer under the manager lock, nothing else. */
  function StartCall(c: Conn, k: Ref, command: Command): Conn {
    c.(desk := c.desk.(calls := c.desk.calls[k := Call(command, Found, None, None)]))
  }

  function StartSub(c: Conn, u: Ref, kind: string): Conn {
    c.(hub := c.hub.(subs := c.hub.subs[u := Sub(kind, Located, None, [], [], [])]))
  }

  // ---------------------------------------------------------------- invariant

  predicate InFlight(s: CallState) {
    s.Registered? || s.Waiting? || s.Finishing?
  }

  predicate Listening(s: CallState) {
    s.Registered? || s.Waiting?
  }

  predicate Subscribed(s: SubState) {
    s.Attached? || s.Running? || s.Holding? || s.Undoing? || s.Leaving?
  }

  /** The first result received for a command ID. */
  function First(received: seq<Result>, id: Id): (r: Option<Result>)
    ensures r.Some? ==> r.value in received && r.value.id == id
    ensures r.None? ==> forall x :: x in received ==> x.id != id
  {
    if received == [] then None
    else if received[0].id == id then Some(received[0])
    else First(received[1..], id)
  }

  /** The chunks of one stream still travelling to Core. */
  function ChunksFor(up: seq<AgentMessage>, id: Id): seq<Chunk> {
    if up == [] then []
    else (if up[0].StreamChunk? && up[0].chunk.stream == id then [up[0].chunk] else []) + ChunksFor(up[1..], id)
  }

  /** How one Dispatch call relates to its pending entry, its waiter and the results received. */
  ghost predicate CallOk(d: Desk, k: Ref, done: bool, loop: Loop)
    requires k in d.calls
  {
    var call := d.calls[k];
    && (InFlight(call.state) ==> call.id.Some?)
    && (call.state.Found? ==> call.id.None?)
    && (call.id.Some? ==> call.id.value in d.issued && d.issued[call.id.value] == call.command)
    && (InFlight(call.state) && !done ==> call.id.value in d.pending)
    && (call.state.Registered? ==> call.id.value !in d.sent)
    && (Listening(call.state) && call.waiter.None? ==>
          && call.id.value in d.pending
          && (First(d.received, call.id.value).None?
              || (loop.Resolving? && loop.to == k && First(d.received, call.id.value) == Some(loop.result))))
    && (Listening(call.state) && call.waiter.Some? && call.waiter.value.Answer? ==>
          First(d.received, call.id.value) == Some(call.waiter.value.result))
    && ((call.state.Finishing? || call.state.Returned?) && call.state.outcome.Ok? ==>
          && call.id.Some?
          && First(d.received, call.id.value) == Some(Result(call.id.value, Success(call.state.outcome.payload))))
  }

  ghost predicate IdsDistinct(d: Desk) {
    forall k, l :: k in d.calls && l in d.calls && k != l && d.calls[k].id.Some? ==> d.calls[k].id != d.calls[l].id
  }

  /** Every pending ID belongs to one Dispatch call that is still in flight. */
  ghost predicate PendingOwned(d: Desk) {
    forall id :: id in d.pending ==>
      d.pending[id] in d.calls && d.calls[d.pending[id]].id == Some(id) && InFlight(d.calls[d.pending[id]].state)
  }

  ghost predicate ResultInHandOk(d: Desk, loop: Loop) {
    loop.Resolving? ==>
      loop.to in d.calls && d.calls[loop.to].id == Some(loop.result.id) && First(d.received, loop.result.id).Some?
  }

  ghost predicate DeskOk(d: Desk, done: bool, loop: Loop) {
    && (forall k :: k in d.calls ==> CallOk(d, k, done, loop))
    && IdsDistinct(d)
    && PendingOwned(d)
    && ResultInHandOk(d, loop)
  }

  ghost predicate Genuine(r: Result, produced: map<Id, Execution>) {
    r.id in produced && produced[r.id].reply == r.reply
  }

  /** Every command travels once and every result is what the Agent produced for its ID. */
  ghost predicate TrafficOk(down: seq<CoreMessage>, up: seq<AgentMessage>, executing: map<Id, Command>,
                            produced: map<Id, Execution>, received: seq<Result>, issued: map<Id, Command>,
                            sent: set<Id>)
  {
    && (forall i :: 0 <= i < |down| && down[i].Execute? ==>
          && down[i].id in sent && down[i].id in issued && issued[down[i].id] == down[i].command
          && down[i].id !in executing && down[i].id !in produced)
    && (forall i, j :: 0 <= i < j < |down| && down[i].Execute? && down[j].Execute? ==> down[i].id != down[j].id)
    && (forall id :: id in executing ==> id in sent && id in issued && issued[id] == executing[id] && id !in produced)
    && (forall id :: id in produced ==> id in sent && id in issued && issued[id] == produced[id].command)
    && (forall i :: 0 <= i < |up| && up[i].CommandResult? ==> Genuine(up[i].result, produced))
    && (forall r :: r in received ==> Genuine(r, produced))
    && sent <= issued.Keys
  }

  ghost predicate OnlyAllowed(issued: map<Id, Command>, allowed: set<string>) {
    forall id :: id in issued ==> issued[id].kind in allowed
  }

  /** The chunks that left the wire towards one subscription. */
  function Arrived(u: Ref, sub: Sub, loop: Loop): seq<Chunk> {
    sub.taken + sub.buffer + (if loop.Forwarding? && loop.to == u then [loop.chunk] else [])
  }

  ghost predicate OutputOk(sub: Sub) {
    && |sub.output| <= |sub.taken| <= |sub.output| + 1
    && (forall i :: 0 <= i < |sub.output| ==> sub.taken[i].data == sub.output[i] && !sub.taken[i].eof)
    && (sub.state.Attached? || sub.state.Running? ==> |sub.taken| == |sub.output|)
    && (sub.state.Holding? ==>
          && |sub.taken| == |sub.output| + 1
          && sub.taken[|sub.output|].data == sub.state.data
          && !sub.taken[|sub.output|].eof)
  }

  ghost predicate PipeOk(h: Hub, u: Ref, loop: Loop, up: seq<AgentMessage>, wire: map<Id, seq<Chunk>>)
    requires u in h.subs
  {
    var sub := h.subs[u];
    sub.id.Some? ==>
      && Arrived(u, sub, loop) <= Wire(wire, sub.id.value)
      && (sub.id.value in h.streams ==>
            Arrived(u, sub, loop) + ChunksFor(up, sub.id.value) == Wire(wire, sub.id.value))
  }

  ghost predicate SubOk(h: Hub, u: Ref, done: bool)
    requires u in h.subs
  {
    var sub := h.subs[u];
    && OutputOk(sub)
    && (Subscribed(sub.state) || sub.state.Detached? ==> sub.id.Some?)
    && (sub.state.Located? ==> sub.id.None?)
    && (sub.id.Some? ==> sub.id.value in h.minted)
    && (sub.state.Attached? ==> sub.id.value !in h.asked)
    && (Subscribed(sub.state) && !done ==> sub.id.value in h.streams)
    && (sub.id.None? ==> sub.output == [])
  }

  ghost predicate StreamIdsDistinct(h: Hub) {
    forall u, v :: u in h.subs && v in h.subs && u != v && h.subs[u].id.Some? ==> h.subs[u].id != h.subs[v].id
  }

  /** Every registered stream belongs to one subscription that has not detached. */
  ghost predicate StreamsOwned(h: Hub) {
    forall id :: id in h.streams ==>
      h.streams[id] in h.subs && h.subs[h.streams[id]].id == Some(id) && Subscribed(h.subs[h.streams[id]].state)
  }

  ghost predicate ChunkInHandOk(h: Hub, loop: Loop) {
    loop.Forwarding? ==> loop.to in h.subs && h.subs[loop.to].id == Some(loop.chunk.stream)
  }

  ghost predicate HubOk(h: Hub, done: bool, loop: Loop) {
    && (done ==> h.streams == map[])
    && (forall u :: u in h.subs ==> SubOk(h, u, done))
    && StreamIdsDistinct(h)
    && StreamsOwned(h)
    && ChunkInHandOk(h, loop)
  }

  ghost predicate PipesOk(h: Hub, loop: Loop, up: seq<AgentMessage>, wire: map<Id, seq<Chunk>>) {
    forall u :: u in h.subs ==> PipeOk(h, u, loop, up, wire)
  }

  ghost predicate FeedOk(f: Feed, chunks: seq<Chunk>) {
    && f.clean <= |chunks|
    && (forall i :: 0 <= i < f.clean ==> chunks[i].sequence == i + 1)
    && (!f.cancelled ==> f.clean == |chunks| == f.sequence)
    && (forall i :: 0 <= i < |chunks| && chunks[i].eof ==> i == |chunks| - 1 && f.ended)
  }

  ghost predicate FeedsOk(down: seq<CoreMessage>, feeds: map<Id, Feed>, wire: map<Id, seq<Chunk>>, asked: set<Id>) {
    && (forall i :: 0 <= i < |down| && down[i].Subscribe? ==> down[i].id in asked && down[i].id !in feeds)
    && (forall i, j :: 0 <= i < j < |down| && down[i].Subscribe? && down[j].Subscribe? ==> down[i].id != down[j].id)
    && (forall id :: id in feeds ==> id in asked && FeedOk(feeds[id], Wire(wire, id)))
    && (forall id :: id in wire ==> id in feeds)
  }

  ghost predicate ChunksMinted(up: seq<AgentMessage>, minted: set<Id>) {
    forall i :: 0 <= i < |up| && up[i].StreamChunk? ==> up[i].chunk.stream in minted
  }

  ghost predicate Inv(c: Conn) {
    && DeskOk(c.desk, c.done, c.loop)
    && TrafficOk(c.down, c.up, c.agent.executing, c.agent.produced, c.desk.received, c.desk.issued, c.desk.sent)
    && OnlyAllowed(c.desk.issued, c.allowed)
    && HubOk(c.hub, c.done, c.loop)
    && PipesOk(c.hub, c.loop, c.up, c.agent.wire)
    && FeedsOk(c.down, c.agent.feeds, c.agent.wire, c.hub.asked)
    && c.hub.asked <= c.hub.minted
    && ChunksMinted(c.up, c.hub.minted)
  }
}
