/** The proxy as an object: sessions that its callbacks update, and the set of those whose
    forwarder is there, consulted and updated across callbacks. Every callback has the effect
    ProxySpec gives it. */
module Proxying {
  import opened Common
  import opened ProxySpec
  import Con = ConnectorSpec
  import Fwd = ForwarderSpec

  // What the callbacks of a session share: its forwarder and its retry loop.
  class ProxySession {
    var x: Session

    constructor (writable: bool)
      ensures x == Session(Checking, Con.Initial(), Fwd.Initial(writable))
    {
      x := Session(Checking, Con.Initial(), Fwd.Initial(writable));
    }

    method CloseClient()
      requires Fwd.Handles(x.forwarder, Fwd.Inc)
      modifies this
      ensures x == CloseIncoming(old(x))
    {
      x := x.(forwarder := Fwd.Close(x.forwarder, Fwd.Inc));
    }
  }

  class TcpProxy {
    const timeout: nat
    var forwarders: set<ProxySession>

    // The sessions in the order of their connections, and what they come to.
    ghost var sessions: seq<ProxySession>
    ghost var st: State

    ghost predicate Shape()
      reads this, sessions
    {
      && |sessions| == |st.sessions|
      && (forall i, j :: 0 <= i < j < |sessions| ==> sessions[i] != sessions[j])
      && (forall i :: 0 <= i < |sessions| ==> sessions[i].x == st.sessions[i])
      && (forall i :: 0 <= i < |sessions| ==> (sessions[i] in forwarders <==> i in st.live))
    }

    ghost predicate Valid()
      reads this, sessions
    {
      Shape() && Sound(st, timeout)
    }

    constructor (timeout: nat)
      ensures this.timeout == timeout && st == NOTHING && Valid()
    {
      this.timeout := timeout;
      forwarders, sessions, st := {}, [], NOTHING;
    }

    predicate Has(session: ProxySession)
      reads this
    {
      session in forwarders
    }

    // Removing a forwarder that is not there is a fatal error in the source.
    method Remove(session: ProxySession)
      requires Has(session)
      modifies this`forwarders
      ensures forwarders == old(forwarders) - {session}
    {
      forwarders := forwarders - {session};
    }

    // Session i is this one, and e is possible for it.
    ghost predicate Handles(session: ProxySession, i: nat, e: Event)
      reads this, sessions
    {
      Valid() && i < |sessions| && sessions[i] == session && Enabled(st, e) && !e.Connection? && e.i == i
    }

    // The session has been brought up to date; the record of the proxy follows.
    ghost method Record(session: ProxySession, i: nat, e: Event)
      requires Sound(st, timeout) && |sessions| == |st.sessions|
      requires i < |sessions| && sessions[i] == session && Enabled(st, e) && !e.Connection? && e.i == i
      requires forall j, k :: 0 <= j < k < |sessions| ==> sessions[j] != sessions[k]
      requires forall j :: 0 <= j < |sessions| && j != i ==> sessions[j].x == st.sessions[j]
      requires forall j :: 0 <= j < |sessions| && j != i ==> (sessions[j] in forwarders <==> j in st.live)
      requires session.x == After(st.sessions[i], timeout, e, i in st.live)
      requires session in forwarders <==> i in st.live && session.x.forwarder.fired <= st.sessions[i].forwarder.fired
      modifies this`st
      ensures Valid() && st == Step(old(st), timeout, e)
    {
      StepSound(st, timeout, e);
      st := Step(st, timeout, e);
    }

    // ---------------------------------------------------------------- the callbacks

    method OnConnection(writable: bool) returns (session: ProxySession)
      requires Valid()
      modifies this
      ensures Valid() && st == Step(old(st), timeout, Connection(writable))
      ensures fresh(session) && sessions == old(sessions) + [session]
    {
      StepSound(st, timeout, Connection(writable));
      session := new ProxySession(writable);
      forwarders := forwarders + {session};
      sessions := sessions + [session];
      st := Step(st, timeout, Connection(writable));
    }

    method OnChecked(session: ProxySession, error: int, ghost i: nat)
      requires Handles(session, i, Checked(i, error))
      modifies this, session
      ensures Valid() && sessions == old(sessions) && st == Step(old(st), timeout, Checked(i, error))
    {
      assert SessionOk(st.sessions[i], timeout);
      if error != 0 {
        if Has(session) {
          session.CloseClient();
        }
        session.x := session.x.(stage := Refused);
      } else {
        session.x := session.x.(stage := Connecting);
      }
      Record(session, i, Checked(i, error));
    }

    // An event of the retry loop; when it decides the loop, its callback runs.
    method OnConnector(session: ProxySession, t: Con.Event, writable: bool, ok: bool, ghost i: nat)
      requires Handles(session, i, Connector(i, t, writable, ok))
      modifies this, session
      ensures Valid() && sessions == old(sessions) && st == Step(old(st), timeout, Connector(i, t, writable, ok))
    {
      assert SessionOk(st.sessions[i], timeout);
      KeepsFired(session.x, timeout, t, i in st.live, writable, ok);
      RunLoop(session, t, writable, ok);
      Record(session, i, Connector(i, t, writable, ok));
    }

    method RunLoop(session: ProxySession, t: Con.Event, writable: bool, ok: bool)
      requires SessionOk(session.x, timeout) && Con.Enabled(session.x.connector, t)
      requires Has(session) ==> !session.x.forwarder.Destroyed()
      modifies session
      ensures session.x == Loop(old(session.x), timeout, t, Has(session), writable, ok)
    {
      var c := Con.Step(session.x.connector, timeout, t);
      var decided := |c.results| > |session.x.connector.results|;
      if decided {
        CallbackReady(session.x, timeout, t, writable, ok);
      }
      session.x := session.x.(connector := c);
      if decided {
        OnUpstream(session, c.results[0], writable, ok);
      }
    }

    // The callback given to the retry loop.
    method OnUpstream(session: ProxySession, outgoing: Option<nat>, writable: bool, ok: bool)
      requires Upstream(session.x) == outgoing
      requires Has(session) ==> Fwd.Enabled(session.x.forwarder, Fwd.OutgoingSet(false, writable, ok))
      requires Has(session) ==> Fwd.Handles(session.x.forwarder, Fwd.Inc)
      modifies session
      ensures session.x == Decided(old(session.x), Has(session), writable, ok)
    {
      var x := session.x;
      if !Has(session) {
        if outgoing.Some? {
          session.x := x.(connector := Con.Close(x.connector, outgoing.value));
        }
      } else if outgoing.Some? {
        var k := outgoing.value;
        var f := Fwd.SetOutgoing(x.forwarder, false, writable, ok);
        if k in x.connector.handles && x.connector.handles[k].closing {
          f := Fwd.Fail(f, Fwd.Out);
        }
        session.x := x.(forwarder := f, connector := Follow(x.connector, k, f.out));
      } else {
        session.CloseClient();
      }
    }

    // A forwarder handles an event of its sockets; its close listener removes it.
    method OnForwarder(session: ProxySession, t: Fwd.Event, ghost i: nat)
      requires Handles(session, i, Forwarded(i, t))
      modifies this, session
      ensures Valid() && sessions == old(sessions) && st == Step(old(st), timeout, Forwarded(i, t))
    {
      assert SessionOk(st.sessions[i], timeout);
      OutMoves(session.x.forwarder, t);
      var before := session.x.forwarder.fired;
      session.x := Forward(session.x, t);
      if session.x.forwarder.fired > before {
        Remove(session);
      }
      Record(session, i, Forwarded(i, t));
    }
  }
}
