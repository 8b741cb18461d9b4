/**
  Enrolment of servers: registration tokens, the status of a server, and the calls in flight.  A step
  is one database transaction, so a service call made of two transactions is two steps.
*/
module Enrolment {
  import opened Options

  type Id = string
  type Hash = string

  datatype Status = Pending | Online | Warning | Offline

  datatype Token = Token(server: Id, expires: int, used: bool)

  /** A token that was accepted, and when. */
  datatype Acceptance = Acceptance(hash: Hash, at: int, expires: int)

  datatype Db = Db(servers: map<Id, Status>, tokens: map<Hash, Token>, certificates: set<Id>)

  /** `creating` holds servers whose first token is not saved yet, `registering` those whose token was
      accepted and whose registration is not written yet.  `made`, `issued` and `accepted` record the past. */
  datatype State = State(db: Db, creating: set<Id>, registering: multiset<Id>,
                         made: set<Id>, issued: set<Hash>, accepted: seq<Acceptance>)

  const EMPTY := State(Db(map[], map[], {}), {}, multiset{}, {}, {}, [])

  datatype Event =
    | Create(id: Id)
    | SaveToken(id: Id, hash: Hash, expires: int)
    | ReplaceToken(id: Id, hash: Hash, expires: int)
    | Consume(hash: Hash, now: int)
    | Register(id: Id)
    | AbandonRegister(id: Id)
    | Heartbeat(id: Id)
    | MarkStale(late: map<Id, Status>)
    | Delete(id: Id)

  /** New identifiers and tokens are new; only an Agent with a certificate sends heartbeats; a call is
      continued where it was left. */
  predicate Possible(t: State, e: Event) {
    match e
    case Create(id) => id !in t.made
    case SaveToken(id, hash, _) => id in t.creating && hash !in t.issued
    case ReplaceToken(_, hash, _) => hash !in t.issued
    case Consume(_, _) => true
    case Register(id) => id in t.registering
    case AbandonRegister(id) => id in t.registering
    case Heartbeat(id) => id in t.db.certificates
    case MarkStale(late) => forall id :: id in late ==> late[id] == Warning || late[id] == Offline
    case Delete(_) => true
  }

  // ---------------------------------------------------------------- transactions

  function MarkUsed(tokens: map<Hash, Token>, id: Id): map<Hash, Token> {
    map h | h in tokens :: if tokens[h].server == id then tokens[h].(used := true) else tokens[h]
  }

  /** The token that a hash still opens. */
  function Usable(tokens: map<Hash, Token>, hash: Hash, now: int): Option<Token> {
    if hash in tokens && !tokens[hash].used && tokens[hash].expires > now then Some(tokens[hash]) else None
  }

  function Stale(servers: map<Id, Status>, late: map<Id, Status>): map<Id, Status> {
    map s | s in servers :: if !servers[s].Pending? && s in late then late[s] else servers[s]
  }

  function Expunge(tokens: map<Hash, Token>, id: Id): map<Hash, Token> {
    map h | h in tokens && tokens[h].server != id :: tokens[h]
  }

  /** The tables after one transaction; a transaction that fails changes nothing. */
  function Transact(d: Db, e: Event): Db {
    match e
    case Create(id) => d.(servers := d.servers[id := Pending])
    case SaveToken(id, hash, expires) =>
      if id in d.servers && hash !in d.tokens then d.(tokens := d.tokens[hash := Token(id, expires, false)]) else d
    case ReplaceToken(id, hash, expires) =>
      if id in d.servers && d.servers[id].Pending? && hash !in d.tokens then
        d.(tokens := MarkUsed(d.tokens, id)[hash := Token(id, expires, false)])
      else d
    case Consume(hash, now) =>
      if Usable(d.tokens, hash, now).Some? then d.(tokens := d.tokens[hash := d.tokens[hash].(used := true)]) else d
    case Register(id) =>
      if id in d.servers && id !in d.certificates then
        d.(servers := d.servers[id := Online], certificates := d.certificates + {id})
      else d
    case AbandonRegister(_) => d
    case Heartbeat(id) => if id in d.servers then d.(servers := d.servers[id := Online]) else d
    case MarkStale(late) => d.(servers := Stale(d.servers, late))
    case Delete(id) => Db(d.servers - {id}, Expunge(d.tokens, id), d.certificates - {id})
  }

  function Apply(t: State, e: Event): State {
    var u := t.(db := Transact(t.db, e));
    match e
    case Create(id) => u.(creating := t.creating + {id}, made := t.made + {id})
    case SaveToken(id, hash, _) => u.(creating := t.creating - {id}, issued := t.issued + {hash})
    case ReplaceToken(_, hash, _) => u.(issued := t.issued + {hash})
    case Consume(hash, now) =>
      var token := Usable(t.db.tokens, hash, now);
      if token.None? then u
      else u.(registering := t.registering + multiset{token.value.server},
              accepted := t.accepted + [Acceptance(hash, now, token.value.expires)])
    case Register(id) => u.(registering := t.registering - multiset{id})
    case AbandonRegister(id) => u.(registering := t.registering - multiset{id})
    case _ => u
  }

  // ---------------------------------------------------------------- what each transaction does

  /** A created server is pending and a registered or heard one is online, with a certificate only by
      registration; the others keep their status and their certificate. */
  lemma StatusAfter(d: Db, e: Event, id: Id, other: Id)
    requires e == Create(id) || e == Heartbeat(id) || (e == Register(id) && id !in d.certificates)
    requires e.Create? || id in d.servers
    ensures var u := Transact(d, e);
            && id in u.servers && u.servers[id] == (if e.Create? then Pending else Online)
            && (id in u.certificates <==> id in d.certificates || e.Register?)
            && u.tokens == d.tokens
            && (other != id ==> (other in u.servers <==> other in d.servers)
                                && (other in u.certificates <==> other in d.certificates)
                                && (other in d.servers ==> u.servers[other] == d.servers[other]))
  {
  }

  /** A late server gets the status it is late for, unless it is pending; nothing else changes. */
  lemma StaleAfter(d: Db, late: map<Id, Status>, id: Id)
    requires id in d.servers
    ensures var u := Transact(d, MarkStale(late));
            && u.servers.Keys == d.servers.Keys && u.tokens == d.tokens && u.certificates == d.certificates
            && (d.servers[id].Pending? || id !in late ==> u.servers[id] == d.servers[id])
            && (!d.servers[id].Pending? && id in late ==> u.servers[id] == late[id])
  {
  }

  /** A deleted server is gone with its certificate and its tokens; everything else stays. */
  lemma DeletedIsGone(d: Db, id: Id, h: Hash)
    ensures var u := Transact(d, Delete(id));
            && u.servers == d.servers - {id} && u.certificates == d.certificates - {id}
            && (h in u.tokens <==> h in d.tokens && d.tokens[h].server != id)
            && (h in u.tokens ==> u.tokens[h] == d.tokens[h])
  {
  }

  /** A new token is usable until it expires, and accepting it is for its server. */
  lemma NewTokenWorks(d: Db, id: Id, hash: Hash, expires: int, now: int)
    requires id in d.servers && d.servers[id].Pending? && hash !in d.tokens
    ensures Usable(Transact(d, SaveToken(id, hash, expires)).tokens, hash, now)
            == if now < expires then Some(Token(id, expires, false)) else None
    ensures Usable(Transact(d, ReplaceToken(id, hash, expires)).tokens, hash, now)
            == if now < expires then Some(Token(id, expires, false)) else None
  {
  }

  // ---------------------------------------------------------------- what every step keeps

  predicate Known(d: Db, made: set<Id>, issued: set<Hash>) {
    d.servers.Keys <= made && d.tokens.Keys <= issued && Owned(d.tokens, d.servers.Keys)
  }

  predicate Owned(tokens: map<Hash, Token>, servers: set<Id>) {
    forall h :: h in tokens ==> tokens[h].server in servers
  }

  /** A server has a certificate exactly when it has left the pending state. */
  predicate Certified(servers: map<Id, Status>, certificates: set<Id>) {
    && certificates <= servers.Keys
    && forall id :: id in servers ==> (id in certificates <==> !servers[id].Pending?)
  }

  predicate Linked(t: State) {
    Known(t.db, t.made, t.issued) && Certified(t.db.servers, t.db.certificates)
  }

  /** An accepted token was accepted in time, is known, and is used if it is still there. */
  predicate Spent(tokens: map<Hash, Token>, issued: set<Hash>, a: Acceptance) {
    a.at < a.expires && a.hash in issued && (a.hash in tokens ==> tokens[a.hash].used)
  }

  predicate AcceptedOnce(tokens: map<Hash, Token>, issued: set<Hash>, accepted: seq<Acceptance>) {
    && (forall i :: 0 <= i < |accepted| ==> Spent(tokens, issued, accepted[i]))
    && (forall i, j :: 0 <= i < j < |accepted| ==> accepted[i].hash != accepted[j].hash)
  }

  lemma StepKeepsLinked(t: State, e: Event)
    requires Linked(t) && Possible(t, e)
    ensures Linked(Apply(t, e))
  {
    StepKeepsKnown(t, e);
    StepKeepsCertified(t, e);
  }

  lemma StepKeepsKnown(t: State, e: Event)
    requires Known(t.db, t.made, t.issued)
    ensures var u := Apply(t, e); Known(u.db, u.made, u.issued)
  {
    StepKeepsOwned(t.db, e);
    TokenKeys(t.db, e);
  }

  lemma StepKeepsOwned(d: Db, e: Event)
    requires Owned(d.tokens, d.servers.Keys)
    ensures Owned(Transact(d, e).tokens, Transact(d, e).servers.Keys)
  {
  }

  lemma TokenKeys(d: Db, e: Event)
    ensures forall h :: h in Transact(d, e).tokens ==>
              h in d.tokens || ((e.SaveToken? || e.ReplaceToken?) && h == e.hash)
  {
  }

  predicate Carried(was: map<Hash, Token>, now: map<Hash, Token>, h: Hash) {
    h in was && h in now && now[h].server == was[h].server && (was[h].used ==> now[h].used)
  }

  /** A token row is carried over with its server, or is the new one. */
  lemma TokenRows(d: Db, e: Event, h: Hash)
    requires h in Transact(d, e).tokens
    ensures Carried(d.tokens, Transact(d, e).tokens, h)
            || ((e.SaveToken? || (e.ReplaceToken? && e.id in d.servers && d.servers[e.id].Pending?))
                && h == e.hash && Transact(d, e).tokens[h] == Token(e.id, e.expires, false))
  {
  }

  lemma StepKeepsCertified(t: State, e: Event)
    requires Linked(t) && Possible(t, e)
    ensures var u := Apply(t, e); Certified(u.db.servers, u.db.certificates)
  {
  }

  lemma StepKeepsSpent(t: State, e: Event, a: Acceptance)
    requires Possible(t, e) && Spent(t.db.tokens, t.issued, a)
    ensures Spent(Apply(t, e).db.tokens, Apply(t, e).issued, a)
  {
    if a.hash in Apply(t, e).db.tokens {
      TokenRows(t.db, e, a.hash);
    }
  }

  lemma ConsumedIsSpent(t: State, e: Event)
    requires Known(t.db, t.made, t.issued) && e.Consume? && Usable(t.db.tokens, e.hash, e.now).Some?
    ensures var u := Apply(t, e); Spent(u.db.tokens, u.issued, Acceptance(e.hash, e.now, t.db.tokens[e.hash].expires))
  {
  }

  lemma StepKeepsAccepted(t: State, e: Event)
    requires Linked(t) && AcceptedOnce(t.db.tokens, t.issued, t.accepted) && Possible(t, e)
    ensures var u := Apply(t, e); AcceptedOnce(u.db.tokens, u.issued, u.accepted)
  {
    forall i | 0 <= i < |t.accepted|
      ensures Spent(Apply(t, e).db.tokens, Apply(t, e).issued, t.accepted[i]) {
      StepKeepsSpent(t, e, t.accepted[i]);
    }
    if e.Consume? && Usable(t.db.tokens, e.hash, e.now).Some? {
      ConsumedIsSpent(t, e);
    }
  }

  // ---------------------------------------------------------------- one usable token at a time

  predicate NoUnused(tokens: map<Hash, Token>, id: Id) {
    forall h :: h in tokens && tokens[h].server == id ==> tokens[h].used
  }

  predicate Rivals(tokens: map<Hash, Token>, g: Hash, h: Hash) {
    g in tokens && h in tokens && g != h && !tokens[g].used && !tokens[h].used && tokens[g].server == tokens[h].server
  }

  /** No two unused tokens of one server. */
  ghost predicate OneUnused(tokens: map<Hash, Token>) {
    forall g, h :: !Rivals(tokens, g, h)
  }

  /** A registered server cannot be enrolled again. */
  predicate RegisteredClosed(tokens: map<Hash, Token>, certificates: set<Id>) {
    forall id :: id in certificates ==> NoUnused(tokens, id)
  }

  /** A server that is being created has no token and is not registered. */
  predicate CreatingClosed(tokens: map<Hash, Token>, creating: set<Id>, certificates: set<Id>, made: set<Id>) {
    NoToken(tokens, creating) && creating !! certificates && creating <= made
  }

  predicate NoToken(tokens: map<Hash, Token>, ids: set<Id>) {
    forall h :: h in tokens ==> tokens[h].server !in ids
  }

  /** A server that is being registered has used up its token. */
  predicate RegisteringClosed(tokens: map<Hash, Token>, registering: multiset<Id>, creating: set<Id>, made: set<Id>) {
    forall id :: id in registering ==> id in made && id !in creating && NoUnused(tokens, id)
  }

  ghost predicate Exclusive(t: State) {
    && OneUnused(t.db.tokens) && RegisteredClosed(t.db.tokens, t.db.certificates)
    && CreatingClosed(t.db.tokens, t.creating, t.db.certificates, t.made)
    && RegisteringClosed(t.db.tokens, t.registering, t.creating, t.made)
  }

  /** A new token is not asked for while a creation or a registration of that server is half done. */
  predicate Undisturbed(t: State, e: Event) {
    e.ReplaceToken? ==> e.id !in t.creating && e.id !in t.registering
  }

  /** A token that is used up stays so, except that a new one may be issued for its server. */
  lemma StepKeepsNoUnused(t: State, e: Event, id: Id)
    requires NoUnused(t.db.tokens, id)
    requires e.SaveToken? ==> e.id != id
    requires e.ReplaceToken? ==> e.id != id || (id in t.db.servers ==> !t.db.servers[id].Pending?)
    ensures NoUnused(Apply(t, e).db.tokens, id)
  {
    var now := Transact(t.db, e).tokens;
    forall h | h in now && now[h].server == id ensures now[h].used {
      TokenRows(t.db, e, h);
    }
  }

  lemma StepKeepsCreating(t: State, e: Event)
    requires Linked(t) && Possible(t, e) && Exclusive(t) && Undisturbed(t, e)
    ensures var u := Apply(t, e); CreatingClosed(u.db.tokens, u.creating, u.db.certificates, u.made)
  {
    StepKeepsNoToken(t, e);
  }

  lemma StepKeepsNoToken(t: State, e: Event)
    requires Known(t.db, t.made, t.issued) && Possible(t, e) && NoToken(t.db.tokens, t.creating) && Undisturbed(t, e)
    ensures NoToken(Apply(t, e).db.tokens, Apply(t, e).creating)
  {
    var now := Transact(t.db, e).tokens;
    forall h | h in now ensures now[h].server !in Apply(t, e).creating {
      TokenRows(t.db, e, h);
    }
  }

  lemma StepKeepsRegistering(t: State, e: Event)
    requires Linked(t) && Possible(t, e) && Exclusive(t) && Undisturbed(t, e)
    ensures var u := Apply(t, e); RegisteringClosed(u.db.tokens, u.registering, u.creating, u.made)
  {
    var u := Apply(t, e);
    forall id | id in u.registering ensures id in u.made && id !in u.creating && NoUnused(u.db.tokens, id) {
      if id in t.registering {
        StepKeepsNoUnused(t, e, id);
      } else {
        ConsumedIsLast(t, e, id);
      }
    }
  }

  /** Accepting a token leaves its server without one. */
  lemma ConsumedIsLast(t: State, e: Event, id: Id)
    requires Linked(t) && OneUnused(t.db.tokens) && id in Apply(t, e).registering && id !in t.registering
    requires CreatingClosed(t.db.tokens, t.creating, t.db.certificates, t.made)
    ensures id in Apply(t, e).made && id !in Apply(t, e).creating && NoUnused(Apply(t, e).db.tokens, id)
  {
    assert e.Consume? && t.db.tokens[e.hash].server == id;
    forall h | h in t.db.tokens && t.db.tokens[h].server == id && h != e.hash ensures t.db.tokens[h].used {
      assert !Rivals(t.db.tokens, h, e.hash);
    }
  }

  // ---------------------------------------------------------------- exactly when

  /** At most one usable token per server, and none for a registered one. */
  ghost predicate Single(t: State) {
    OneUnused(t.db.tokens) && RegisteredClosed(t.db.tokens, t.db.certificates)
  }

  /** The second half of a creation or a registration that comes after a token was issued in between. */
  predicate Late(t: State, e: Event) {
    match e
    case SaveToken(id, hash, _) =>
      id in t.db.servers && hash !in t.db.tokens && (id in t.db.certificates || !NoUnused(t.db.tokens, id))
    case Register(id) => id in t.db.servers && id !in t.db.certificates && !NoUnused(t.db.tokens, id)
    case _ => false
  }

  /** Undisturbed calls are never late. */
  lemma ExclusiveIsTimely(t: State, e: Event)
    requires Possible(t, e) && Exclusive(t)
    ensures !Late(t, e)
  {
  }

  lemma LateBreaks(t: State, e: Event)
    requires Linked(t) && Possible(t, e) && Late(t, e)
    ensures !Single(Apply(t, e))
  {
    var u := Apply(t, e);
    if e.SaveToken? && !NoUnused(t.db.tokens, e.id) {
      var h :| h in t.db.tokens && t.db.tokens[h].server == e.id && !t.db.tokens[h].used;
      assert Rivals(u.db.tokens, h, e.hash);
    } else if e.SaveToken? {
      assert e.hash in u.db.tokens && e.id in u.db.certificates && !NoUnused(u.db.tokens, e.id);
    } else {
      assert u.db.tokens == t.db.tokens && e.id in u.db.certificates;
    }
  }

  /** Besides a new token its server has no unused one. */
  lemma NewTokenAlone(t: State, e: Event, h: Hash)
    requires !Late(t, e) && (e.SaveToken? || e.ReplaceToken?) && h in Transact(t.db, e).tokens && h != e.hash
    requires e.hash in Transact(t.db, e).tokens && e.hash !in t.db.tokens
    ensures var now := Transact(t.db, e).tokens; now[h].server == e.id ==> now[h].used
  {
  }

  lemma TimelyKeepsPair(t: State, e: Event, g: Hash, h: Hash)
    requires !Rivals(t.db.tokens, g, h) && !Late(t, e)
    ensures !Rivals(Transact(t.db, e).tokens, g, h)
  {
    var now := Transact(t.db, e).tokens;
    if g in now && h in now && g != h {
      TokenRows(t.db, e, g);
      TokenRows(t.db, e, h);
      if g !in t.db.tokens {
        NewTokenAlone(t, e, h);
      } else if h !in t.db.tokens {
        NewTokenAlone(t, e, g);
      }
    }
  }

  lemma TimelyKeepsOneUnused(t: State, e: Event)
    requires Single(t) && !Late(t, e)
    ensures OneUnused(Apply(t, e).db.tokens)
  {
    forall g, h ensures !Rivals(Apply(t, e).db.tokens, g, h) {
      TimelyKeepsPair(t, e, g, h);
    }
  }

  /** A step that is not late leaves a certified server without an unused token. */
  lemma TimelyKeepsClosed(t: State, e: Event, id: Id)
    requires Linked(t) && NoUnused(t.db.tokens, id) && id in t.db.certificates && !Late(t, e)
    ensures NoUnused(Apply(t, e).db.tokens, id)
  {
    if e.SaveToken? && e.id == id {
      assert Transact(t.db, e).tokens == t.db.tokens;
    } else {
      StepKeepsNoUnused(t, e, id);
    }
  }

  lemma TimelyKeepsRegistered(t: State, e: Event)
    requires Linked(t) && Single(t) && !Late(t, e)
    ensures RegisteredClosed(Apply(t, e).db.tokens, Apply(t, e).db.certificates)
  {
    forall id | id in Apply(t, e).db.certificates ensures NoUnused(Apply(t, e).db.tokens, id) {
      if id in t.db.certificates {
        TimelyKeepsClosed(t, e, id);
      } else {
        assert e == Register(id) && NoUnused(t.db.tokens, id);
      }
    }
  }

  /** One step from a good state leads to a good state exactly when it is not late. */
  lemma StepSingleIff(t: State, e: Event)
    requires Linked(t) && Possible(t, e) && Single(t)
    ensures Single(Apply(t, e)) <==> !Late(t, e)
  {
    if Late(t, e) {
      LateBreaks(t, e);
    } else {
      TimelyKeepsOneUnused(t, e);
      TimelyKeepsRegistered(t, e);
    }
  }

  // ---------------------------------------------------------------- runs

  function Reached(events: seq<Event>): State {
    if events == [] then EMPTY else Apply(Reached(events[..|events| - 1]), events[|events| - 1])
  }

  ghost predicate IsRun(events: seq<Event>) {
    events == [] || (IsRun(events[..|events| - 1]) && Possible(Reached(events[..|events| - 1]), events[|events| - 1]))
  }

  ghost predicate IsUndisturbed(events: seq<Event>) {
    events == []
    || (IsUndisturbed(events[..|events| - 1]) && Undisturbed(Reached(events[..|events| - 1]), events[|events| - 1]))
  }

  lemma {:induction false} RunLinked(events: seq<Event>)
    requires IsRun(events)
    ensures Linked(Reached(events))
  {
    if events != [] {
      RunLinked(events[..|events| - 1]);
      StepKeepsLinked(Reached(events[..|events| - 1]), events[|events| - 1]);
    }
  }

  /** In every run each token is accepted at most once, and only before it expires. */
  lemma {:induction false} TokensAcceptedOnce(events: seq<Event>)
    requires IsRun(events)
    ensures var t := Reached(events); AcceptedOnce(t.db.tokens, t.issued, t.accepted)
  {
    if events != [] {
      TokensAcceptedOnce(events[..|events| - 1]);
      RunLinked(events[..|events| - 1]);
      StepKeepsAccepted(Reached(events[..|events| - 1]), events[|events| - 1]);
    }
  }

  predicate Left(t: State, id: Id) {
    id in t.made && (id in t.db.servers ==> !t.db.servers[id].Pending?)
  }

  /** Only a creation makes a server pending. */
  lemma PendingOrigin(d: Db, e: Event, id: Id)
    requires id in Transact(d, e).servers && Transact(d, e).servers[id].Pending?
    requires e.MarkStale? ==> forall s :: s in e.late ==> e.late[s] == Warning || e.late[s] == Offline
    ensures (e.Create? && e.id == id) || (id in d.servers && d.servers[id].Pending?)
  {
  }

  lemma StepKeepsLeft(t: State, e: Event, id: Id)
    requires Possible(t, e) && Left(t, id)
    ensures Left(Apply(t, e), id)
  {
    if id in Transact(t.db, e).servers && Transact(t.db, e).servers[id].Pending? {
      PendingOrigin(t.db, e, id);
    }
  }

  /** A server that has left the pending state, or is gone, is never pending again. */
  lemma {:induction false} NeverPendingAgain(events: seq<Event>, n: nat, id: Id)
    requires IsRun(events) && n <= |events| && Left(Reached(events[..n]), id)
    ensures Left(Reached(events), id)
  {
    if n == |events| {
      assert events[..n] == events;
    } else {
      var before := events[..|events| - 1];
      assert before[..n] == events[..n];
      NeverPendingAgain(before, n, id);
      StepKeepsLeft(Reached(before), events[|events| - 1], id);
    }
  }

  /** With creation and registration undisturbed, a server has at most one usable token and a
      registered server has none. */
  lemma {:induction false} UndisturbedIsExclusive(events: seq<Event>)
    requires IsRun(events) && IsUndisturbed(events)
    ensures Exclusive(Reached(events))
  {
    if events != [] {
      var t, e := Reached(events[..|events| - 1]), events[|events| - 1];
      UndisturbedIsExclusive(events[..|events| - 1]);
      RunLinked(events[..|events| - 1]);
      ExclusiveIsTimely(t, e);
      StepSingleIff(t, e);
      StepKeepsCreating(t, e);
      StepKeepsRegistering(t, e);
    }
  }

  ghost predicate AlwaysSingle(events: seq<Event>) {
    forall n: nat :: n <= |events| ==> Single(Reached(events[..n]))
  }

  ghost predicate NeverLate(events: seq<Event>) {
    forall n: nat :: n < |events| ==> !Late(Reached(events[..n]), events[n])
  }

  lemma SplitOff(events: seq<Event>)
    requires events != []
    ensures var before, last := events[..|events| - 1], events[|events| - 1];
            && (AlwaysSingle(events) <==> AlwaysSingle(before) && Single(Reached(events)))
            && (NeverLate(events) <==> NeverLate(before) && !Late(Reached(before), last))
  {
    var before := events[..|events| - 1];
    assert forall n: nat :: n < |events| ==> before[..n] == events[..n];
    assert events[..|events|] == events;
  }

  /** Over a whole run every server has at most one usable token and a registered one has none, if and
      only if no second half of a creation or a registration came late. */
  lemma {:induction false} RunSingleIff(events: seq<Event>)
    requires IsRun(events)
    ensures AlwaysSingle(events) <==> NeverLate(events)
  {
    if events == [] {
      assert forall n: nat :: n <= 0 ==> events[..n] == [];
    } else {
      var before := events[..|events| - 1];
      RunSingleIff(before);
      SplitOff(events);
      RunLinked(before);
      if AlwaysSingle(before) {
        assert before[..|before|] == before;
        StepSingleIff(Reached(before), events[|events| - 1]);
      }
    }
  }

  /** A token issued between the two halves of a registration outlives it. */
  lemma DisturbedRegistration(t: State, id: Id, hash: Hash, expires: int)
    requires Linked(t) && id in t.registering && id in t.db.servers && t.db.servers[id].Pending?
    requires Possible(t, ReplaceToken(id, hash, expires))
    ensures var u := Apply(Apply(t, ReplaceToken(id, hash, expires)), Register(id));
            && id in u.db.certificates && !NoUnused(u.db.tokens, id)
            && forall now :: now < expires ==> Usable(u.db.tokens, hash, now).Some?
  {
    var u := Apply(Apply(t, ReplaceToken(id, hash, expires)), Register(id));
    assert u.db.tokens[hash] == Token(id, expires, false);
  }

  /** A token issued between the two halves of a creation makes a second one. */
  lemma DisturbedCreation(t: State, id: Id, g: Hash, h: Hash, expires: int)
    requires Linked(t) && id in t.creating && id in t.db.servers && t.db.servers[id].Pending?
    requires g != h && g !in t.issued && h !in t.issued
    ensures var u := Apply(Apply(t, ReplaceToken(id, g, expires)), SaveToken(id, h, expires));
            Rivals(u.db.tokens, g, h)
  {
  }

  /** A server enrolled with a token issued in between gets its first token after it is registered. */
  lemma LateFirstToken(t: State, id: Id, h: Hash, g: Hash, expires: int, now: int)
    requires Linked(t) && id in t.creating && id in t.db.servers && t.db.servers[id].Pending?
    requires g != h && g !in t.issued && h !in t.issued && now < expires
    ensures var registered := Apply(Apply(Apply(t, ReplaceToken(id, h, expires)), Consume(h, now)), Register(id));
            var u := Apply(registered, SaveToken(id, g, expires));
            && id in u.db.certificates && Usable(u.db.tokens, g, now).Some? && !NoUnused(u.db.tokens, id)
  {
    var issued := Apply(t, ReplaceToken(id, h, expires));
    assert Usable(issued.db.tokens, h, now).Some?;
    var registered := Apply(Apply(issued, Consume(h, now)), Register(id));
    assert g !in registered.db.tokens && id in registered.db.certificates;
    assert Apply(registered, SaveToken(id, g, expires)).db.tokens[g] == Token(id, expires, false);
  }

  // ---------------------------------------------------------------- the repository

  class Repository {
    var servers: map<Id, Status>
    var tokens: map<Hash, Token>
    var certificates: set<Id>

    constructor ()
      ensures Now() == EMPTY.db
    {
      servers, tokens, certificates := map[], map[], {};
    }

    function Now(): Db
      reads this
    {
      Db(servers, tokens, certificates)
    }

    method InsertToken(id: Id, hash: Hash, expires: int) returns (ok: bool)
      modifies this`tokens
      ensures Now() == Transact(old(Now()), SaveToken(id, hash, expires))
      ensures ok == (id in servers && hash !in old(tokens))
    {
      ok := id in servers && hash !in tokens;
      if ok {
        tokens := tokens[hash := Token(id, expires, false)];
      }
    }

    method ReplaceTokens(id: Id, hash: Hash, expires: int) returns (ok: bool)
      modifies this`tokens
      ensures Now() == Transact(old(Now()), ReplaceToken(id, hash, expires))
      ensures ok == (id in servers && servers[id].Pending? && hash !in old(tokens))
    {
      if id !in servers || !servers[id].Pending? {
        return false;
      }
      if hash in tokens {
        return false;  // the insertion fails and the transaction is rolled back
      }
      tokens := MarkUsed(tokens, id);
      tokens := tokens[hash := Token(id, expires, false)];
      return true;
    }

    method ConsumeToken(hash: Hash, now: int) returns (server: Option<Id>)
      modifies this`tokens
      ensures Now() == Transact(old(Now()), Consume(hash, now))
      ensures var token := Usable(old(tokens), hash, now);
              server == if token.Some? then Some(token.value.server) else None
    {
      if hash !in tokens || tokens[hash].used {
        return None;
      }
      if tokens[hash].expires <= now {
        return None;
      }
      server := Some(tokens[hash].server);
      tokens := tokens[hash := tokens[hash].(used := true)];
    }

    method WriteRegistration(id: Id) returns (ok: bool)
      modifies this`servers, this`certificates
      ensures Now() == Transact(old(Now()), Register(id))
      ensures ok == (id in old(servers) && id !in old(certificates))
    {
      if id !in servers || id in certificates {
        return false;
      }
      servers := servers[id := Online];
      certificates := certificates + {id};
      return true;
    }

    method DeleteServer(id: Id)
      modifies this
      ensures Now() == Transact(old(Now()), Delete(id))
    {
      servers := servers - {id};
      tokens := Expunge(tokens, id);
      certificates := certificates - {id};
    }
  }
}
