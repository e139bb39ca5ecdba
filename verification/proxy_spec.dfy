/** Proxy sessions as a machine over values: each incoming connection gets a forwarder, then
    its upstream app is checked, then the retry loop connects the upstream; the client may
    leave at any time in between. A session is built from the machines of its forwarder and
    its retry loop; an upstream socket is a client handle of the loop. */
module ProxySpec {
  import opened Common
  import Fwd = ForwarderSpec
  import Runs = ForwarderRuns
  import Effects = ForwarderEffects
  import Con = ConnectorSpec

  // What the check of the upstream app has said: nothing yet, an error, or that it runs.
  datatype Stage = Checking | Refused | Connecting

  datatype Session = Session(stage: Stage, connector: Con.State, forwarder: Fwd.State)

  // `live` is the proxy's set of forwarders. A forwarder is named by its session.
  datatype State = State(sessions: seq<Session>, live: set<nat>) {
    function Put(i: nat, s: Session): State
      requires i < |sessions|
    {
      this.(sessions := sessions[i := s])
    }
  }

  // The callback of the retry loop runs within an event of the loop; `writable` and `ok` say
  // whether the socket it is given is writable and whether a first write to it is accepted.
  datatype Event =
    | Connection(writable: bool)
    | Checked(i: nat, error: int)
    | Connector(i: nat, t: Con.Event, writable: bool, ok: bool)
    | Forwarded(i: nat, e: Fwd.Event)

  // The upstream socket has been handed to the forwarder.
  predicate Joined(x: Session) {
    x.forwarder.out != Fwd.Unset
  }

  // The client the retry loop has handed over.
  function Upstream(x: Session): Option<nat> {
    if |x.connector.results| == 1 then x.connector.results[0] else None
  }

  // What a joined socket reports is reported to the forwarder.
  predicate OfSocket(e: Con.Event) {
    e.Broken? || e.CloseCalled? || e.CloseDone?
  }

  // The check answers once. What sockets and timers report is up to them; only the proxy sets
  // an outgoing socket.
  predicate Possible(x: Session, e: Event) {
    match e
    case Connection(_) => false
    case Checked(_, _) => x.stage == Checking
    case Connector(_, t, _, _) => x.stage == Connecting && Con.Enabled(x.connector, t) && (Joined(x) ==> !OfSocket(t))
    case Forwarded(_, t) => Fwd.Enabled(x.forwarder, t) && !t.OutgoingSet?
  }

  predicate Enabled(s: State, e: Event) {
    e.Connection? || (e.i < |s.sessions| && Possible(s.sessions[e.i], e))
  }

  function CloseIncoming(x: Session): Session {
    x.(forwarder := Fwd.Close(x.forwarder, Fwd.Inc))
  }

  // The handle of a joined socket follows what the forwarder makes of it.
  function Follow(c: Con.State, k: nat, end: Fwd.End): Con.State {
    if end == Fwd.Closing then Con.Close(c, k)
    else if end == Fwd.Gone && k in c.handles then Con.HandleGone(c, k)
    else c
  }

  // The callback of the retry loop. A socket that could not be read from once it had connected
  // fails right after it.
  function Decided(x: Session, here: bool, writable: bool, ok: bool): Session {
    match Upstream(x)
    case None => if here then CloseIncoming(x) else x
    case Some(k) =>
      if !here then x.(connector := Con.Close(x.connector, k))
      else
        var f := Fwd.SetOutgoing(x.forwarder, false, writable, ok);
        var g := if k in x.connector.handles && x.connector.handles[k].closing then Fwd.Fail(f, Fwd.Out) else f;
        x.(forwarder := g, connector := Follow(x.connector, k, g.out))
  }

  function Loop(x: Session, timeout: nat, e: Con.Event, here: bool, writable: bool, ok: bool): Session
    requires Con.Enabled(x.connector, e)
  {
    var c := Con.Step(x.connector, timeout, e);
    var y := x.(connector := c);
    if |c.results| > |x.connector.results| then Decided(y, here, writable, ok) else y
  }

  function Forward(x: Session, e: Fwd.Event): Session {
    var f := Fwd.Step(x.forwarder, e);
    x.(forwarder := f, connector := if Upstream(x).Some? && Joined(x) then Follow(x.connector, Upstream(x).value, f.out) else x.connector)
  }

  // What an event makes of its session; `here` says whether its forwarder is still there.
  function After(x: Session, timeout: nat, e: Event, here: bool): Session
    requires Possible(x, e)
  {
    match e
    case Checked(_, error) =>
      if error == 0 then x.(stage := Connecting)
      else (if here then CloseIncoming(x) else x).(stage := Refused)
    case Connector(_, t, writable, ok) => Loop(x, timeout, t, here, writable, ok)
    case Forwarded(_, t) => Forward(x, t)
  }

  // A forwarder whose close listener fires is removed.
  function Step(s: State, timeout: nat, e: Event): State
    requires Enabled(s, e)
  {
    if e.Connection? then
      s.(sessions := s.sessions + [Session(Checking, Con.Initial(), Fwd.Initial(e.writable))],
         live := s.live + {|s.sessions|})
    else
      var x := s.sessions[e.i];
      var y := After(x, timeout, e, e.i in s.live);
      s.Put(e.i, y).(live := if y.forwarder.fired > x.forwarder.fired then s.live - {e.i} else s.live)
  }

  // ---------------------------------------------------------------- the invariant

  // The forwarder and the retry loop see the joined socket k alike.
  ghost predicate Agree(x: Session, k: nat) {
    var c := x.connector;
    match x.forwarder.out
    case Unset => false
    case Open(_) => k in c.handles && !c.handles[k].closing
    case Closing => k in c.handles && c.handles[k].closing
    case Gone => k !in c.handles
  }

  ghost predicate UpstreamOk(x: Session) {
    match Upstream(x)
    case None => !Joined(x) && (x.connector.results != [] ==> !x.forwarder.inc.Open?)
    case Some(k) =>
      if Joined(x) then Agree(x, k)
      else x.forwarder.Destroyed() && (k in x.connector.handles ==> x.connector.handles[k].closing)
  }

  ghost predicate SessionOk(x: Session, timeout: nat) {
    && Runs.Sound(x.forwarder)
    && Con.Sound(x.connector, timeout)
    && UpstreamOk(x)
    && !x.forwarder.aliased
    && (x.stage != Connecting ==> x.connector == Con.Initial())
    && (x.stage == Refused ==> !x.forwarder.inc.Open?)
  }

  ghost predicate Sound(s: State, timeout: nat) {
    && (forall i :: 0 <= i < |s.sessions| ==> SessionOk(s.sessions[i], timeout))
    && s.live == set i: nat | i < |s.sessions| && !s.sessions[i].forwarder.Destroyed()
  }

  // Following a socket is an event of the retry loop, or none.
  lemma {:induction false} FollowOk(c: Con.State, timeout: nat, k: nat, end: Fwd.End)
    requires Con.Sound(c, timeout) && c.results == [Some(k)]
    requires end == Fwd.Gone && k in c.handles ==> c.handles[k].closing
    ensures var d := Follow(c, k, end);
      && Con.Sound(d, timeout) && d.results == c.results
      && (end == Fwd.Closing && k in c.handles ==> k in d.handles && d.handles[k].closing)
      && (end == Fwd.Gone ==> k !in d.handles)
  {
    if k in c.handles {
      if end == Fwd.Closing { Con.StepSound(c, timeout, Con.CloseCalled(k)); }
      if end == Fwd.Gone { Con.StepSound(c, timeout, Con.CloseDone(k)); }
    }
  }

  // An outgoing socket that is there starts to close before it is gone.
  lemma {:induction false} OutMoves(f: Fwd.State, e: Fwd.Event)
    requires Runs.Sound(f) && Fwd.Enabled(f, e) && !e.OutgoingSet? && !f.aliased
    ensures var g := Fwd.Step(f, e);
      && !g.aliased
      && (f.out == Fwd.Unset <==> g.out == Fwd.Unset)
      && (f.out.Open? ==> g.out.Open? || g.out == Fwd.Closing)
      && (f.out == Fwd.Closing ==> g.out == Fwd.Closing || g.out == Fwd.Gone)
      && (f.out == Fwd.Gone ==> g.out == Fwd.Gone)
      && (!f.inc.Open? ==> !g.inc.Open?)
      && !f.Destroyed()
      && (g.fired > f.fired <==> g.Destroyed())
  {
    assert Runs.Sound(Fwd.Step(f, e)) by { Runs.StepSound(f, e); }
    match e
    case Data(_, _, _) =>
    case Sent(_, _) =>
    case CloseDone(_) =>
    case _ =>
  }

  lemma {:induction false} ForwardOk(x: Session, timeout: nat, e: Fwd.Event)
    requires SessionOk(x, timeout) && Fwd.Enabled(x.forwarder, e) && !e.OutgoingSet?
    ensures SessionOk(Forward(x, e), timeout)
  {
    Runs.StepSound(x.forwarder, e);
    OutMoves(x.forwarder, e);
    if Upstream(x).Some? && Joined(x) {
      assert x.connector.results == [Upstream(x)];
      FollowOk(x.connector, timeout, Upstream(x).value, Fwd.Step(x.forwarder, e).out);
    }
  }

  // A socket that has just connected is not closing, unless it cannot be read from.
  lemma {:induction false} JustDecided(c: Con.State, timeout: nat, e: Con.Event)
    requires Con.Sound(c, timeout) && Con.Enabled(c, e)
    ensures var d := Con.Step(c, timeout, e);
      && (|d.results| > |c.results| ==> c.results == [] && |d.results| == 1 && (d.results[0].Some? ==> d.results[0].value in d.handles))
      && (|d.results| <= |c.results| ==> d.results == c.results)
  {
    Con.StepSound(c, timeout, e);
  }

  // The forwarder of a session that has just been joined, and after its socket has failed.
  lemma {:induction false} JoinedOk(f: Fwd.State, writable: bool, ok: bool)
    requires Runs.Sound(f) && !f.aliased && f.out == Fwd.Unset && !f.Destroyed()
    ensures var g := Fwd.SetOutgoing(f, false, writable, ok); var h := Fwd.Fail(g, Fwd.Out);
      && Runs.Sound(g) && !g.aliased && !g.Destroyed() && (g.out.Open? || g.out == Fwd.Closing)
      && Runs.Sound(h) && !h.aliased && !h.Destroyed() && h.out == Fwd.Closing
  {
    Runs.SetOutgoingSound(f, false, writable, ok);
    var g := Fwd.SetOutgoing(f, false, writable, ok);
    if g.out.Open? { Runs.StepSound(g, Fwd.ReadFailed(Fwd.Out)); }
  }

  lemma {:induction false} DecidedOk(x: Session, timeout: nat, writable: bool, ok: bool)
    requires Runs.Sound(x.forwarder) && Con.Sound(x.connector, timeout) && !x.forwarder.aliased && !Joined(x)
    requires x.stage == Connecting && |x.connector.results| == 1
    requires Upstream(x).Some? ==> Upstream(x).value in x.connector.handles
    ensures SessionOk(Decided(x, !x.forwarder.Destroyed(), writable, ok), timeout)
    ensures Decided(x, !x.forwarder.Destroyed(), writable, ok).forwarder.Destroyed() == x.forwarder.Destroyed()
  {
    match Upstream(x)
    case None =>
    case Some(k) =>
      assert x.connector.results == [Some(k)];
      if x.forwarder.Destroyed() {
        FollowOk(x.connector, timeout, k, Fwd.Closing);
      } else {
        JoinedOk(x.forwarder, writable, ok);
        FollowOk(x.connector, timeout, k, Decided(x, true, writable, ok).forwarder.out);
      }
  }

  lemma {:induction false} LoopOk(x: Session, timeout: nat, e: Con.Event, writable: bool, ok: bool)
    requires SessionOk(x, timeout) && x.stage == Connecting
    requires Con.Enabled(x.connector, e) && (Joined(x) ==> !OfSocket(e))
    ensures var y := Loop(x, timeout, e, !x.forwarder.Destroyed(), writable, ok);
      SessionOk(y, timeout) && y.forwarder.Destroyed() == x.forwarder.Destroyed()
  {
    var c := Con.Step(x.connector, timeout, e);
    assert Con.Sound(c, timeout) by { Con.StepSound(x.connector, timeout, e); }
    if |c.results| > |x.connector.results| {
      JustDecided(x.connector, timeout, e);
      DecidedOk(x.(connector := c), timeout, writable, ok);
    } else {
      UndecidedOk(x, timeout, e);
    }
  }

  // What else happens to the retry loop leaves a joined socket alone.
  lemma {:induction false} UndecidedOk(x: Session, timeout: nat, e: Con.Event)
    requires SessionOk(x, timeout) && x.stage == Connecting
    requires Con.Enabled(x.connector, e) && (Joined(x) ==> !OfSocket(e))
    requires |Con.Step(x.connector, timeout, e).results| <= |x.connector.results|
    ensures SessionOk(x.(connector := Con.Step(x.connector, timeout, e)), timeout)
  {
    Con.StepSound(x.connector, timeout, e);
    JustDecided(x.connector, timeout, e);
  }

  lemma {:induction false} CheckedOk(x: Session, timeout: nat, error: int)
    requires SessionOk(x, timeout) && x.stage == Checking
    ensures SessionOk(x.(stage := Connecting), timeout)
    ensures var y := CloseIncoming(x).(stage := Refused);
      SessionOk(y, timeout) && y.forwarder.Destroyed() == x.forwarder.Destroyed()
    ensures x.forwarder.Destroyed() ==> SessionOk(x.(stage := Refused), timeout)
  {
    if Fwd.Handles(x.forwarder, Fwd.Inc) { Runs.StepSound(x.forwarder, Fwd.CloseCalled(Fwd.Inc)); }
  }

  lemma {:induction false} AfterOk(x: Session, timeout: nat, e: Event)
    requires SessionOk(x, timeout) && Possible(x, e)
    ensures var y := After(x, timeout, e, !x.forwarder.Destroyed());
      && SessionOk(y, timeout)
      && (y.forwarder.Destroyed() <==> x.forwarder.Destroyed() || y.forwarder.fired > x.forwarder.fired)
  {
    match e
    case Checked(_, error) => CheckedOk(x, timeout, error);
    case Connector(_, t, writable, ok) => LoopOk(x, timeout, t, writable, ok);
    case Forwarded(_, t) =>
      OutMoves(x.forwarder, t);
      ForwardOk(x, timeout, t);
  }

  lemma {:induction false} PutSound(s: State, timeout: nat, i: nat, y: Session, gone: bool)
    requires Sound(s, timeout) && i < |s.sessions| && SessionOk(y, timeout)
    requires y.forwarder.Destroyed() <==> s.sessions[i].forwarder.Destroyed() || gone
    ensures Sound(s.Put(i, y).(live := if gone then s.live - {i} else s.live), timeout)
  {
  }

  lemma {:induction false} StepSound(s: State, timeout: nat, e: Event)
    requires Sound(s, timeout) && Enabled(s, e)
    ensures Sound(Step(s, timeout, e), timeout)
  {
    if e.Connection? {
      assert SessionOk(Session(Checking, Con.Initial(), Fwd.Initial(e.writable)), timeout);
    } else {
      var x := s.sessions[e.i];
      assert SessionOk(x, timeout) && (e.i in s.live <==> !x.forwarder.Destroyed());
      AfterOk(x, timeout, e);
      var y := After(x, timeout, e, e.i in s.live);
      PutSound(s, timeout, e.i, y, y.forwarder.fired > x.forwarder.fired);
    }
  }

  // ---------------------------------------------------------------- every run

  const NOTHING := State([], {})

  // The state after the events es, if each of them was possible when it came.
  function Run(s: State, timeout: nat, es: seq<Event>): Option<State>
    decreases |es|
  {
    if es == [] then Some(s)
    else if Enabled(s, es[0]) then Run(Step(s, timeout, es[0]), timeout, es[1..])
    else None
  }

  lemma {:induction false} RunSound(s: State, timeout: nat, es: seq<Event>)
    requires Sound(s, timeout) && Run(s, timeout, es).Some?
    ensures Sound(Run(s, timeout, es).value, timeout)
    decreases |es|
  {
    if es != [] {
      StepSound(s, timeout, es[0]);
      RunSound(Step(s, timeout, es[0]), timeout, es[1..]);
    }
  }

  // The proxy's set holds exactly the forwarders that have been created and not destroyed.
  lemma {:induction false} ForwardersAreLive(timeout: nat, es: seq<Event>, i: nat)
    requires Run(NOTHING, timeout, es).Some?
    ensures var s := Run(NOTHING, timeout, es).value;
      i in s.live <==> i < |s.sessions| && !s.sessions[i].forwarder.Destroyed()
  {
    RunSound(NOTHING, timeout, es);
  }

  // So a forwarder that is being destroyed is found when it is removed, and goes for good.
  lemma {:induction false} RemoveFinds(timeout: nat, es: seq<Event>, i: nat, e: Fwd.Event)
    requires Run(NOTHING, timeout, es).Some? && Enabled(Run(NOTHING, timeout, es).value, Forwarded(i, e))
    ensures var s := Run(NOTHING, timeout, es).value; var r := Step(s, timeout, Forwarded(i, e));
      i in s.live && (i !in r.live <==> r.sessions[i].forwarder.Destroyed())
  {
    RunSound(NOTHING, timeout, es);
    OutMoves(Run(NOTHING, timeout, es).value.sessions[i].forwarder, e);
  }

  // The callback of the retry loop runs at most once in a session: it adds the one result.
  lemma {:induction false} DecidedOnce(timeout: nat, es: seq<Event>, e: Event)
    requires Run(NOTHING, timeout, es).Some? && Enabled(Run(NOTHING, timeout, es).value, e) && e.Connector?
    ensures var s := Run(NOTHING, timeout, es).value;
      var c, d := s.sessions[e.i].connector, Con.Step(s.sessions[e.i].connector, timeout, e.t);
      && Step(s, timeout, e).sessions[e.i].connector.results == d.results
      && (d.results == c.results || (c.results == [] && |d.results| == 1))
  {
    RunSound(NOTHING, timeout, es);
    var s := Run(NOTHING, timeout, es).value;
    assert SessionOk(s.sessions[e.i], timeout);
    JustDecided(s.sessions[e.i].connector, timeout, e.t);
    LoopResults(s.sessions[e.i], timeout, e.t, e.i in s.live, e.writable, e.ok);
  }

  // No event of the retry loop fires a forwarder's close listener.
  lemma {:induction false} KeepsFired(x: Session, timeout: nat, t: Con.Event, here: bool, writable: bool, ok: bool)
    requires Con.Enabled(x.connector, t)
    ensures Loop(x, timeout, t, here, writable, ok).forwarder.fired == x.forwarder.fired
  {
  }

  lemma {:induction false} LoopResults(x: Session, timeout: nat, t: Con.Event, here: bool, writable: bool, ok: bool)
    requires Con.Enabled(x.connector, t)
    ensures Loop(x, timeout, t, here, writable, ok).connector.results == Con.Step(x.connector, timeout, t).results
  {
  }

  // What a live session has when that callback is about to run.
  lemma {:induction false} CallbackReady(x: Session, timeout: nat, t: Con.Event, writable: bool, ok: bool)
    requires SessionOk(x, timeout) && Con.Enabled(x.connector, t)
    requires |Con.Step(x.connector, timeout, t).results| > |x.connector.results|
    ensures !Joined(x) && |Con.Step(x.connector, timeout, t).results| == 1
    ensures !x.forwarder.Destroyed() ==>
      Fwd.Enabled(x.forwarder, Fwd.OutgoingSet(false, writable, ok)) && Fwd.Handles(x.forwarder, Fwd.Inc)
  {
    JustDecided(x.connector, timeout, t);
  }

  // Until then a forwarder that is there has no outgoing socket, and its client's socket is
  // there to be closed.
  lemma {:induction false} OutgoingSetOnce(timeout: nat, es: seq<Event>, i: nat, writable: bool, ok: bool)
    requires Run(NOTHING, timeout, es).Some? && i in Run(NOTHING, timeout, es).value.live
    ensures var s := Run(NOTHING, timeout, es).value;
      i < |s.sessions| && (s.sessions[i].connector.results == [] ==>
        Fwd.Enabled(s.sessions[i].forwarder, Fwd.OutgoingSet(false, writable, ok))
        && Fwd.Handles(s.sessions[i].forwarder, Fwd.Inc))
  {
    RunSound(NOTHING, timeout, es);
    assert SessionOk(Run(NOTHING, timeout, es).value.sessions[i], timeout);
  }

  // No orphan: once the retry loop is decided, a client handle of it that is not closing is
  // the open outgoing socket of a forwarder whose client is still there. So when the client
  // is gone, every upstream socket is closing or gone, whether it was joined, came too late
  // or never connected. And a session that was refused or could not connect keeps no client
  // open.
  lemma {:induction false} NoOrphan(timeout: nat, es: seq<Event>, i: nat, j: nat)
    requires Run(NOTHING, timeout, es).Some? && i < |Run(NOTHING, timeout, es).value.sessions|
    ensures var x := Run(NOTHING, timeout, es).value.sessions[i]; var f, c := x.forwarder, x.connector;
      && (c.results != [] && j in c.handles && !c.handles[j].closing ==>
        c.results == [Some(j)] && f.out.Open? && (f.inc.Open? || f.inc == Fwd.Closing))
      && (c.results != [] && f.inc == Fwd.Gone && j in c.handles ==> c.handles[j].closing)
      && (x.stage == Refused || c.results == [None] ==> f.inc == Fwd.Closing || f.inc == Fwd.Gone)
  {
    RunSound(NOTHING, timeout, es);
    assert SessionOk(Run(NOTHING, timeout, es).value.sessions[i], timeout);
  }

  // ---------------------------------------------------------------- the end of a session

  // How many reports that were owed to the sockets of session i came in the events es.
  function OwedTo(s: State, timeout: nat, i: nat, es: seq<Event>): nat
    requires i < |s.sessions| && Run(s, timeout, es).Some?
    decreases |es|
  {
    if es == [] then 0
    else
      (if Pays(s.sessions[i].forwarder, i, es[0]) then 1 else 0) + OwedTo(Step(s, timeout, es[0]), timeout, i, es[1..])
  }

  predicate Pays(f: Fwd.State, i: nat, e: Event) {
    e.Forwarded? && e.i == i && Runs.Owed(f, e.e)
  }

  // No report is owed any more.
  ghost predicate Settled(f: Fwd.State) {
    forall t :: Fwd.Enabled(f, t) ==> !Runs.Owed(f, t)
  }

  lemma {:induction false} FailAdvances(f: Fwd.State)
    requires Runs.Sound(f) && Runs.Doomed(f) && f.out != Fwd.Unset
    ensures Runs.Doomed(Fwd.Fail(f, Fwd.Out)) && Runs.Left(Fwd.Fail(f, Fwd.Out)) <= Runs.Left(f)
  {
  }

  lemma {:induction false} DecidedAdvances(x: Session, timeout: nat, writable: bool, ok: bool)
    requires Runs.Sound(x.forwarder) && !x.forwarder.aliased && !Joined(x) && Runs.Doomed(x.forwarder)
    ensures var f := Decided(x, !x.forwarder.Destroyed(), writable, ok).forwarder;
      Runs.Doomed(f) && Runs.Left(f) <= Runs.Left(x.forwarder)
  {
    if !x.forwarder.Destroyed() {
      Runs.TeardownAdvances(x.forwarder, Fwd.CloseCalled(Fwd.Inc));
      Runs.TeardownAdvances(x.forwarder, Fwd.OutgoingSet(false, writable, ok));
      JoinedOk(x.forwarder, writable, ok);
      FailAdvances(Fwd.SetOutgoing(x.forwarder, false, writable, ok));
    }
  }

  // Once an end of a session closes, nothing that happens to it puts its end off, and every
  // report that is owed brings it closer.
  lemma {:induction false} AfterAdvances(x: Session, timeout: nat, e: Event)
    requires SessionOk(x, timeout) && Possible(x, e) && Runs.Doomed(x.forwarder)
    ensures var y := After(x, timeout, e, !x.forwarder.Destroyed());
      && Runs.Doomed(y.forwarder) && Runs.Left(y.forwarder) <= Runs.Left(x.forwarder)
      && (Pays(x.forwarder, e.i, e) ==> Runs.Left(y.forwarder) < Runs.Left(x.forwarder))
  {
    match e
    case Checked(_, error) =>
      if Fwd.Handles(x.forwarder, Fwd.Inc) { Runs.TeardownAdvances(x.forwarder, Fwd.CloseCalled(Fwd.Inc)); }
    case Connector(_, t, writable, ok) =>
      var c := Con.Step(x.connector, timeout, t);
      if |c.results| > |x.connector.results| {
        CallbackReady(x, timeout, t, writable, ok);
        DecidedAdvances(x.(connector := c), timeout, writable, ok);
      }
    case Forwarded(_, t) => Runs.TeardownAdvances(x.forwarder, t);
  }

  lemma {:induction false} StepAdvances(s: State, timeout: nat, i: nat, e: Event)
    requires Sound(s, timeout) && Enabled(s, e) && i < |s.sessions| && Runs.Doomed(s.sessions[i].forwarder)
    ensures var f, r := s.sessions[i].forwarder, Step(s, timeout, e);
      i < |r.sessions| && Runs.Doomed(r.sessions[i].forwarder)
      && Runs.Left(r.sessions[i].forwarder) + (if Pays(f, i, e) then 1 else 0) <= Runs.Left(f)
  {
    if !e.Connection? && e.i == i {
      assert SessionOk(s.sessions[i], timeout) && (i in s.live <==> !s.sessions[i].forwarder.Destroyed());
      AfterAdvances(s.sessions[i], timeout, e);
    }
  }

  lemma {:induction false} RunAdvances(s: State, timeout: nat, i: nat, es: seq<Event>)
    requires Sound(s, timeout) && i < |s.sessions| && Runs.Doomed(s.sessions[i].forwarder) && Run(s, timeout, es).Some?
    ensures var r := Run(s, timeout, es).value;
      i < |r.sessions| && Runs.Doomed(r.sessions[i].forwarder)
      && OwedTo(s, timeout, i, es) + Runs.Left(r.sessions[i].forwarder) <= Runs.Left(s.sessions[i].forwarder)
    decreases |es|
  {
    if es != [] {
      StepAdvances(s, timeout, i, es[0]);
      StepSound(s, timeout, es[0]);
      RunAdvances(Step(s, timeout, es[0]), timeout, i, es[1..]);
    }
  }

  // Once either end of a session starts to close, then whatever else happens to this and to
  // other sessions, a late join included, five reports at most are owed to its sockets, and
  // the proxy has let go of its forwarder exactly when none is owed any more.
  lemma {:induction false} SessionEnds(timeout: nat, es: seq<Event>, i: nat, fs: seq<Event>)
    requires Run(NOTHING, timeout, es).Some? && i < |Run(NOTHING, timeout, es).value.sessions|
    requires Runs.Doomed(Run(NOTHING, timeout, es).value.sessions[i].forwarder)
    requires Run(Run(NOTHING, timeout, es).value, timeout, fs).Some?
    ensures var s := Run(NOTHING, timeout, es).value; var r := Run(s, timeout, fs).value;
      && OwedTo(s, timeout, i, fs) <= 5
      && i < |r.sessions| && (i !in r.live <==> Settled(r.sessions[i].forwarder))
  {
    RunSound(NOTHING, timeout, es);
    var s := Run(NOTHING, timeout, es).value;
    RunSound(s, timeout, fs);
    RunAdvances(s, timeout, i, fs);
    var r := Run(s, timeout, fs).value;
    assert SessionOk(s.sessions[i], timeout) && SessionOk(r.sessions[i], timeout);
    Runs.TeardownCompletes(s.sessions[i].forwarder, []);
    Runs.TeardownCompletes(r.sessions[i].forwarder, []);
  }

  // And it can always be ended by such reports.
  lemma {:induction false} SessionCanEnd(s: State, timeout: nat, i: nat) returns (fs: seq<Event>)
    requires Sound(s, timeout) && i < |s.sessions| && Runs.Doomed(s.sessions[i].forwarder)
    ensures Run(s, timeout, fs).Some? && i !in Run(s, timeout, fs).value.live
    ensures |fs| <= Runs.Left(s.sessions[i].forwarder) && OwedTo(s, timeout, i, fs) == |fs|
    decreases Runs.Left(s.sessions[i].forwarder)
  {
    assert SessionOk(s.sessions[i], timeout);
    if s.sessions[i].forwarder.Destroyed() {
      fs := [];
    } else {
      var t := Runs.TeardownOwes(s.sessions[i].forwarder);
      var e := Forwarded(i, t);
      StepAdvances(s, timeout, i, e);
      StepSound(s, timeout, e);
      var gs := SessionCanEnd(Step(s, timeout, e), timeout, i);
      fs := [e] + gs;
      assert fs[1..] == gs;
    }
  }
  // It is enough that one of its sockets reports an error, or is closed by anyone.
  lemma {:induction false} ErrorEndsSession(timeout: nat, es: seq<Event>, i: nat, t: Fwd.Event, fs: seq<Event>)
    requires Run(NOTHING, timeout, es).Some? && Enabled(Run(NOTHING, timeout, es).value, Forwarded(i, t))
    requires t.ReadFailed? || t.WriteFailed? || t.CloseCalled? || t.CloseDone?
    requires Run(Step(Run(NOTHING, timeout, es).value, timeout, Forwarded(i, t)), timeout, fs).Some?
    ensures var s := Step(Run(NOTHING, timeout, es).value, timeout, Forwarded(i, t)); var r := Run(s, timeout, fs).value;
      && i < |s.sessions| && OwedTo(s, timeout, i, fs) <= 5
      && i < |r.sessions| && (i !in r.live <==> Settled(r.sessions[i].forwarder))
  {
    var before := Run(NOTHING, timeout, es).value;
    RunSound(NOTHING, timeout, es);
    var f := before.sessions[i].forwarder;
    assert SessionOk(before.sessions[i], timeout);
    if t.ReadFailed? || t.WriteFailed? { Effects.ErrorClosesBoth(f, t); } else { Effects.CloseTakesPeer(f, t); }
    RunOn(NOTHING, timeout, es, Forwarded(i, t));
    SessionEnds(timeout, es + [Forwarded(i, t)], i, fs);
  }

  lemma {:induction false} RunOn(s: State, timeout: nat, es: seq<Event>, e: Event)
    requires Run(s, timeout, es).Some? && Enabled(Run(s, timeout, es).value, e)
    ensures Run(s, timeout, es + [e]) == Some(Step(Run(s, timeout, es).value, timeout, e))
    decreases |es|
  {
    if es == [] {
      assert (es + [e])[1..] == [];
    } else {
      assert (es + [e])[1..] == es[1..] + [e];
      RunOn(Step(s, timeout, es[0]), timeout, es[1..], e);
    }
  }

  lemma {:induction false} ConnectDecides(c: Con.State, timeout: nat, k: nat)
    requires Con.Sound(c, timeout) && Con.Enabled(c, Con.ConnectDone(k, true, true))
    ensures var d := Con.Step(c, timeout, Con.ConnectDone(k, true, true));
      c.results == [] && d.results == [Some(k)] && k in d.handles && !d.handles[k].closing
  {
    assert c.timer == Con.Ticking && c.client == Some(k);
    assert [] + [c.client] == [Some(k)];
  }

  // What the proxy makes of an upstream that has connected: it is joined while the forwarder is
  // there, and what the client has sent by then is written to it, or both are closed; one that
  // comes later is closed.
  ghost predicate Joins(x: Session, y: Session, k: nat, here: bool, writable: bool, ok: bool) {
    var sent := x.forwarder.io.inb;
    && y.connector.results == [Some(k)] && k in y.connector.handles
    && if here then
         && y.forwarder.out == (if sent == [] || ok then Fwd.Open(writable) else Fwd.Closing)
         && (sent != [] && ok ==> y.forwarder.io.writing && y.forwarder.io.outb == sent)
         && (y.connector.handles[k].closing <==> sent != [] && !ok)
       else y.forwarder == x.forwarder && y.connector.handles[k].closing
  }

  lemma {:induction false} DecidedJoins(x: Session, k: nat, here: bool, writable: bool, ok: bool)
    requires x.connector.results == [Some(k)] && k in x.connector.handles && !x.connector.handles[k].closing
    requires here ==> Runs.Sound(x.forwarder) && Fwd.Enabled(x.forwarder, Fwd.OutgoingSet(false, writable, ok))
    ensures Joins(x, Decided(x, here, writable, ok), k, here, writable, ok)
  {
    if here { Effects.JoinWrites(x.forwarder, false, writable, ok); }
  }

  lemma {:induction false} ConnectedIsJoined(timeout: nat, es: seq<Event>, i: nat, k: nat, writable: bool, ok: bool)
    requires Run(NOTHING, timeout, es).Some?
    requires Enabled(Run(NOTHING, timeout, es).value, Connector(i, Con.ConnectDone(k, true, true), writable, ok))
    ensures var s := Run(NOTHING, timeout, es).value;
      Joins(s.sessions[i], Step(s, timeout, Connector(i, Con.ConnectDone(k, true, true), writable, ok)).sessions[i],
            k, i in s.live, writable, ok)
  {
    var s := Run(NOTHING, timeout, es).value;
    RunSound(NOTHING, timeout, es);
    var x, t := s.sessions[i], Con.ConnectDone(k, true, true);
    assert SessionOk(x, timeout) && (i in s.live <==> !x.forwarder.Destroyed());
    ConnectDecides(x.connector, timeout, k);
    CallbackReady(x, timeout, t, writable, ok);
    DecidedJoins(x.(connector := Con.Step(x.connector, timeout, t)), k, i in s.live, writable, ok);
  }

  // A session that is refused, or whose upstream does not connect in time, has its client closed.
  lemma {:induction false} RefusedIsClosed(timeout: nat, es: seq<Event>, i: nat, error: int)
    requires Run(NOTHING, timeout, es).Some? && Enabled(Run(NOTHING, timeout, es).value, Checked(i, error)) && error != 0
    ensures var y := Step(Run(NOTHING, timeout, es).value, timeout, Checked(i, error)).sessions[i];
      && (y.forwarder.inc == Fwd.Closing || y.forwarder.inc == Fwd.Gone)
      && y.connector.handles == map[] && y.stage == Refused
  {
    RunSound(NOTHING, timeout, es);
    var s := Run(NOTHING, timeout, es).value;
    assert SessionOk(s.sessions[i], timeout);
    StepSound(s, timeout, Checked(i, error));
    assert SessionOk(Step(s, timeout, Checked(i, error)).sessions[i], timeout);
  }

  lemma {:induction false} LateIsClosed(timeout: nat, es: seq<Event>, i: nat, elapsed: nat, writable: bool, ok: bool)
    requires Run(NOTHING, timeout, es).Some? && elapsed >= timeout
    requires Enabled(Run(NOTHING, timeout, es).value, Connector(i, Con.Tick(elapsed), writable, ok))
    ensures var y := Step(Run(NOTHING, timeout, es).value, timeout, Connector(i, Con.Tick(elapsed), writable, ok)).sessions[i];
      && (y.forwarder.inc == Fwd.Closing || y.forwarder.inc == Fwd.Gone)
      && y.connector.results == [None] && forall k :: k in y.connector.handles ==> y.connector.handles[k].closing
  {
    RunSound(NOTHING, timeout, es);
    var s, e := Run(NOTHING, timeout, es).value, Connector(i, Con.Tick(elapsed), writable, ok);
    var x := s.sessions[i];
    assert SessionOk(x, timeout);
    assert Step(s, timeout, e).sessions[i].connector.results == [None] by {
      LoopResults(x, timeout, Con.Tick(elapsed), i in s.live, writable, ok);
      assert x.connector.results == [];
    }
    StepSound(s, timeout, e);
    assert SessionOk(Step(s, timeout, e).sessions[i], timeout);
  }
}
