/**
  The Core session object itself, with the maps that its methods update in place and waiter
  channels that Dispatch calls share with it.  A critical section or a channel operation is one method;
  Resolve, Register, Unregister and Disconnect are several of them in a row, which module ControlPlane
  interleaves with everything else.
*/
module SessionObject {
  import opened Options
  import opened Sessions

  /** A waiter channel of capacity one. */
  class Waiter {
    var slot: Option<Delivery>

    constructor ()
      ensures slot == None
    {
      slot := None;
    }

    /** A send that does not block: a full channel keeps what it has. */
    method Offer(d: Delivery)
      modifies this
      ensures slot == Offered(old(slot), d)
    {
      if slot.None? {
        slot := Some(d);
      }
    }
  }

  class Session {
    var done: bool
    var pending: map<Id, Waiter>
    var streams: map<Id, Ref>

    constructor ()
      ensures !done && pending == map[] && streams == map[]
    {
      done, pending, streams := false, map[], map[];
    }

    /** Idempotent; wakes each waiter that is still empty, in whatever order the map is walked, and
        leaves a result that already arrived where it is. */
    method Close()
      modifies this, pending.Values
      ensures done
      ensures old(done) ==> unchanged(this) && forall w :: w in old(pending.Values) ==> unchanged(w)
      ensures !old(done) ==> pending == map[] && streams == map[]
      ensures !old(done) ==> forall w :: w in old(pending.Values) ==> w.slot == Offered(old(w.slot), Hangup)
    {
      if done {
        return;
      }
      done := true;
      ghost var waiters := pending.Values;
      while pending != map[]
        invariant pending.Values <= waiters
        invariant done && streams == old(streams)
        invariant forall w :: w in waiters ==>
                    w.slot == old(w.slot) || w.slot == Offered(old(w.slot), Hangup)
        invariant forall w :: w in waiters && w !in pending.Values ==> w.slot == Offered(old(w.slot), Hangup)
        decreases |pending|
      {
        var id :| id in pending;
        var waiter := pending[id];
        assert waiter in pending.Values;
        var rest := pending - {id};
        assert rest.Keys == pending.Keys - {id};
        assert |rest.Keys| < |pending.Keys|;
        assert forall w :: w in pending.Values && w != waiter ==> w in rest.Values by {
          forall w | w in pending.Values && w != waiter ensures w in rest.Values {
            var j :| j in pending && pending[j] == w;
            assert j in rest && rest[j] == w;
          }
        }
        pending := rest;
        waiter.Offer(Hangup);
      }
      streams := map[];
    }

    /** The lookup of resolve, under the lock. */
    method WaiterFor(id: Id) returns (waiter: Option<Waiter>)
      ensures waiter == if id in pending then Some(pending[id]) else None
    {
      waiter := if id in pending then Some(pending[id]) else None;
    }

    /** resolve: the first result for a pending ID reaches its waiter, later ones are dropped. */
    method Resolve(result: Result)
      modifies pending.Values
      ensures result.id in pending ==> pending[result.id].slot == Offered(old(pending[result.id].slot), Answer(result))
      ensures forall w :: w in pending.Values && (result.id !in pending || w != pending[result.id]) ==> unchanged(w)
    {
      var waiter := WaiterFor(result.id);
      if waiter.Some? {
        assert waiter.value in pending.Values;
        waiter.value.Offer(Answer(result));
      }
    }

    /** Subscribe refuses a closed session, so a closed session never gains a stream. */
    method AddStream(id: Id, channel: Ref) returns (ok: bool)
      modifies this`streams
      ensures ok == !done
      ensures streams == if ok then old(streams)[id := channel] else old(streams)
    {
      if done {
        return false;
      }
      streams := streams[id := channel];
      return true;
    }
  }

  /** The sessions by server.  A session is closed once it is taken out of the map. */
  class Manager {
    var sessions: map<string, Session>

    constructor ()
      ensures sessions == map[]
    {
      sessions := map[];
    }

    /** register: the previous session of the server is closed before the new one takes its place. */
    method Register(server: string, session: Session)
      requires session !in sessions.Values
      modifies this`sessions
      modifies if server in sessions then {sessions[server]} else {}
      modifies if server in sessions then sessions[server].pending.Values else {}
      ensures sessions == old(sessions)[server := session]
      ensures server in old(sessions) ==> old(sessions)[server].done
      ensures session.done == old(session.done)
    {
      if server in sessions {
        var previous := sessions[server];
        assert previous in sessions.Values;
        previous.Close();
      }
      sessions := sessions[server := session];
    }

    /** unregister: only the session itself is taken out, never its replacement; it is closed either way. */
    method Unregister(server: string, session: Session)
      modifies this`sessions, session, session.pending.Values
      ensures sessions == if server in old(sessions) && old(sessions)[server] == session
                          then old(sessions) - {server} else old(sessions)
      ensures session.done
    {
      if server in sessions && sessions[server] == session {
        sessions := sessions - {server};
      }
      session.Close();
    }

    method Disconnect(server: string)
      modifies this`sessions
      modifies if server in sessions then {sessions[server]} else {}
      modifies if server in sessions then sessions[server].pending.Values else {}
      ensures sessions == old(sessions) - {server}
      ensures server in old(sessions) ==> old(sessions)[server].done
    {
      if server in sessions {
        var session := sessions[server];
        sessions := sessions - {server};
        session.Close();
      } else {
        assert sessions - {server} == sessions;
      }
    }
  }
}
