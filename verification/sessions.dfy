/** The proxy and the process manager together: every session asks the manager for the upstream
    app once, and the manager never answers a session that is not waiting for it. */
module Sessions {
  import opened Common
  import opened ProcessState
  import PM = ProcessSteps
  import Books = ProcessBooks
  import Demand = ProcessDemand
  import Trail = ProcessTrail
  import ProcessRuns
  import Proxy = ProxySpec

  // ---------------------------------------------------------------- callers and answers

  // How often caller id has asked for `a`, and how often it was answered.
  function Asked(h: History, a: nat, id: nat): nat {
    match h
    case Empty => 0
    case Then(past, e) => Asked(past, a, id) + if e.Registered? && e.app == a && e.callback == User(id) then 1 else 0
  }

  function Told(h: History, a: nat, id: nat): nat {
    match h
    case Empty => 0
    case Then(past, e) => Told(past, a, id) + if e.Invoked? && e.app == a && e.callback == User(id) then 1 else 0
  }

  function Count<T(==)>(q: seq<T>, x: T): nat {
    if q == [] then 0 else Count(q[..|q| - 1], x) + if q[|q| - 1] == x then 1 else 0
  }

  lemma {:induction false} CountAppends<T>(p: seq<T>, q: seq<T>, x: T)
    ensures Count(p + q, x) == Count(p, x) + Count(q, x)
  {
    if q == [] {
      assert p + q == p;
    } else {
      assert (p + q)[..|p + q| - 1] == p + q[..|q| - 1];
      CountAppends(p, q[..|q| - 1], x);
    }
  }

  lemma {:induction false} AskedIsCount(h: History, a: nat, id: nat)
    ensures Asked(h, a, id) == Count(Books.RegisteredOn(h, a), User(id))
    ensures Told(h, a, id) == Count(Books.InvokedOn(h, a), User(id))
  {
    if h.Then? {
      AskedIsCount(h.past, a, id);
      var e := h.entry;
      var reg := if e.Registered? && e.app == a then [e.callback] else [];
      var inv := if e.Invoked? && e.app == a then [e.callback] else [];
      CountAppends(Books.RegisteredOn(h.past, a), reg, User(id));
      CountAppends(Books.InvokedOn(h.past, a), inv, User(id));
      assert forall cb: Callback :: [cb][..0] == [];
    }
  }

  // Nobody is answered more often than they have asked.
  lemma {:induction false} ToldAtMostAsked(w: World, s: State, a: nat, id: nat)
    requires Demand.Ledger(w, s) && a < |w.apps|
    ensures Told(s.history, a, id) <= Asked(s.history, a, id)
  {
    assert Books.Balanced(s, a);
    AskedIsCount(s.history, a, id);
    CountAppends(Books.InvokedOn(s.history, a), s.apps[a].callbacks, User(id));
  }

  // ---------------------------------------------------------------- only callers ask

  lemma {:induction false} TrailAsks(w: World, h: History, g: History, low: int, top: int, a: nat, id: nat)
    requires Trail.Trail(w, h, g, low, top)
    ensures Asked(g, a, id) == Asked(h, a, id)
  {
    if h != g { TrailAsks(w, h, g.past, low, top, a, id); }
  }

  // A caller asks once each time it calls, and never otherwise.
  lemma {:induction false} AskedByCalls(w: World, s: State, e: PM.Event, a: nat, id: nat)
    requires Valid(w, s) && PM.Enabled(w, s, e)
    ensures Asked(PM.Step(w, s, e).history, a, id)
         == Asked(s.history, a, id) + if e == PM.UserRequires(a, id) then 1 else 0
  {
    Trail.StepTrail(w, s, e);
    TrailAsks(w, Trail.Heard(w, s, e), PM.Step(w, s, e).history, -1, |w.apps|, a, id);
  }

  // ---------------------------------------------------------------- the two together

  // The caller that session i is to the process manager. Other callers have odd names.
  function Caller(i: nat): nat {
    2 * i
  }

  datatype System = System(pm: State, proxy: Proxy.State)

  // What the proxy is given: its upstream's app, if it names one, and its connect timeout.
  datatype Setup = Setup(w: World, app: Option<nat>, timeout: nat) {
    ghost predicate Ok() {
      w.Acyclic() && (app.Some? ==> app.value < |w.apps|)
    }
  }

  datatype Event =
    | Connection(writable: bool)
    | Process(p: PM.Event)
    | Socket(x: Proxy.Event)

  // The answers to sessions, in order: which session, and the error.
  function Replies(h: History, a: nat): seq<(nat, int)> {
    match h
    case Empty => []
    case Then(past, e) =>
      Replies(past, a) +
      if e.Invoked? && e.app == a && e.callback.User? && e.callback.id % 2 == 0 then [(e.callback.id / 2, e.error)] else []
  }

  predicate Enabled(u: Setup, s: System, e: Event) {
    match e
    case Connection(_) => true
    case Process(p) => PM.Enabled(u.w, s.pm, p) && (p.UserRequires? ==> p.id % 2 == 1)
    case Socket(x) => Proxy.Enabled(s.proxy, x) && (x.Connector? || x.Forwarded?)
  }

  // Answers run the callbacks of their sessions; None if one is not waiting for its answer.
  function Deliver(s: Proxy.State, timeout: nat, answers: seq<(nat, int)>): Option<Proxy.State>
    decreases |answers|
  {
    if answers == [] then Some(s)
    else
      var e := Proxy.Checked(answers[0].0, answers[0].1);
      if Proxy.Enabled(s, e) then Deliver(Proxy.Step(s, timeout, e), timeout, answers[1..]) else None
  }

  // An event of the process manager and what the proxy makes of its answers.
  ghost function Manage(u: Setup, s: System, p: PM.Event): Option<System>
    requires u.Ok() && Valid(u.w, s.pm) && PM.Enabled(u.w, s.pm, p)
  {
    var pm := PM.Step(u.w, s.pm, p);
    if u.app.None? then Some(s.(pm := pm))
    else
      var before, now := |Replies(s.pm.history, u.app.value)|, Replies(pm.history, u.app.value);
      if before > |now| then None
      else
        match Deliver(s.proxy, u.timeout, now[before..])
        case None => None
        case Some(x) => Some(System(pm, x))
  }

  ghost function Step(u: Setup, s: System, e: Event): Option<System>
    requires u.Ok() && Valid(u.w, s.pm) && Enabled(u, s, e)
  {
    match e
    case Connection(writable) =>
      var i := |s.proxy.sessions|;
      var s1 := s.(proxy := Proxy.Step(s.proxy, u.timeout, Proxy.Connection(writable)));
      if u.app.Some? then Manage(u, s1, PM.UserRequires(u.app.value, Caller(i)))
      else Some(s1.(proxy := Proxy.Step(s1.proxy, u.timeout, Proxy.Checked(i, 0))))
    case Process(p) => Manage(u, s, p)
    case Socket(x) => Some(s.(proxy := Proxy.Step(s.proxy, u.timeout, x)))
  }

  // ---------------------------------------------------------------- the invariant

  predicate Replied(rs: seq<(nat, int)>, i: nat) {
    exists k :: 0 <= k < |rs| && rs[k].0 == i
  }

  // No session is answered twice.
  predicate Once(rs: seq<(nat, int)>) {
    forall j, k :: 0 <= j < k < |rs| ==> rs[j].0 != rs[k].0
  }

  // Where an answer takes a session.
  function StageFor(error: int): Proxy.Stage {
    if error == 0 then Proxy.Connecting else Proxy.Refused
  }

  // The sessions that wait for their check are those without an answer among rs; the others
  // are where their answers took them.
  ghost predicate Waiting(s: Proxy.State, rs: seq<(nat, int)>) {
    && (forall k :: 0 <= k < |rs| ==> rs[k].0 < |s.sessions| && s.sessions[rs[k].0].stage == StageFor(rs[k].1))
    && (forall i :: 0 <= i < |s.sessions| ==> (s.sessions[i].stage == Proxy.Checking <==> !Replied(rs, i)))
  }

  ghost predicate Whole(u: Setup, s: System) {
    && u.Ok()
    && Demand.Ledger(u.w, s.pm)
    && Proxy.Sound(s.proxy, u.timeout)
    && (u.app.Some? ==>
      && Waiting(s.proxy, Replies(s.pm.history, u.app.value))
      && forall i: nat :: Asked(s.pm.history, u.app.value, Caller(i)) == if i < |s.proxy.sessions| then 1 else 0)
  }

  lemma {:induction false} RepliesCount(h: History, a: nat, j: nat, k: nat)
    requires j < k < |Replies(h, a)| && Replies(h, a)[j].0 == Replies(h, a)[k].0
    ensures Told(h, a, Caller(Replies(h, a)[k].0)) >= 2
  {
    var i := Replies(h, a)[k].0;
    if k < |Replies(h.past, a)| {
      RepliesCount(h.past, a, j, k);
    } else {
      ReplyCounts(h.past, a, j);
      assert h.entry.callback == User(Caller(i));
    }
  }

  lemma {:induction false} ReplyCounts(h: History, a: nat, j: nat)
    requires j < |Replies(h, a)|
    ensures Told(h, a, Caller(Replies(h, a)[j].0)) >= 1
  {
    if j < |Replies(h.past, a)| {
      ReplyCounts(h.past, a, j);
    } else {
      assert h.entry.callback == User(Caller(Replies(h, a)[j].0));
    }
  }

  // Sessions that asked once are answered at most once, and nobody else is.
  lemma {:induction false} RepliesFit(w: World, s: State, a: nat, n: nat)
    requires Demand.Ledger(w, s) && a < |w.apps|
    requires forall i: nat :: Asked(s.history, a, Caller(i)) == if i < n then 1 else 0
    ensures var rs := Replies(s.history, a); Once(rs) && forall k :: 0 <= k < |rs| ==> rs[k].0 < n
  {
    var rs := Replies(s.history, a);
    forall k | 0 <= k < |rs| ensures rs[k].0 < n {
      ReplyCounts(s.history, a, k);
      ToldAtMostAsked(w, s, a, Caller(rs[k].0));
    }
    forall j, k | 0 <= j < k < |rs| ensures rs[j].0 != rs[k].0 {
      if rs[j].0 == rs[k].0 {
        RepliesCount(s.history, a, j, k);
        ToldAtMostAsked(w, s, a, Caller(rs[k].0));
      }
    }
  }

  // Answers that nobody got before find their sessions waiting.
  lemma {:induction false} DeliverWorks(s: Proxy.State, timeout: nat, rs: seq<(nat, int)>, m: nat)
    requires Proxy.Sound(s, timeout) && m <= |rs| && Once(rs) && Waiting(s, rs[..m])
    requires forall k :: 0 <= k < |rs| ==> rs[k].0 < |s.sessions|
    ensures var r := Deliver(s, timeout, rs[m..]);
      r.Some? && Proxy.Sound(r.value, timeout) && Waiting(r.value, rs) && |r.value.sessions| == |s.sessions|
    decreases |rs| - m
  {
    if m == |rs| {
      assert rs[..m] == rs;
    } else {
      var (i, error) := rs[m];
      assert !Replied(rs[..m], i);
      var e := Proxy.Checked(i, error);
      var s1 := Proxy.Step(s, timeout, e);
      Proxy.StepSound(s, timeout, e);
      assert rs[..m + 1] == rs[..m] + [rs[m]];
      forall j | 0 <= j < |s1.sessions|
        ensures s1.sessions[j].stage == Proxy.Checking <==> !Replied(rs[..m + 1], j)
      {
        RepliedOneMore(rs, m, j);
        assert j != i ==> s1.sessions[j] == s.sessions[j];
      }
      forall k | 0 <= k < m + 1
        ensures s1.sessions[rs[k].0].stage == StageFor(rs[k].1)
      {
        assert k < m ==> rs[..m][k] == rs[k];
      }
      DeliverWorks(s1, timeout, rs, m + 1);
      assert rs[m..][1..] == rs[m + 1..];
    }
  }

  lemma {:induction false} RepliedOneMore(rs: seq<(nat, int)>, m: nat, j: nat)
    requires m < |rs|
    ensures Replied(rs[..m + 1], j) <==> Replied(rs[..m], j) || rs[m].0 == j
  {
    if Replied(rs[..m], j) {
      var k :| 0 <= k < m && rs[..m][k].0 == j;
      assert rs[..m + 1][k].0 == j;
    }
    if rs[m].0 == j { assert rs[..m + 1][m].0 == j; }
    if Replied(rs[..m + 1], j) && rs[m].0 != j {
      var k :| 0 <= k < m + 1 && rs[..m + 1][k].0 == j;
      assert rs[..m][k].0 == j;
    }
  }

  lemma {:induction false} TrailReplies(w: World, h: History, g: History, low: int, top: int, a: nat)
    requires Trail.Trail(w, h, g, low, top)
    ensures Replies(h, a) <= Replies(g, a)
  {
    if h != g { TrailReplies(w, h, g.past, low, top, a); }
  }

  // ---------------------------------------------------------------- every event, every run

  lemma {:induction false} ManageWorks(u: Setup, s: System, p: PM.Event, n: nat)
    requires u.Ok() && Demand.Ledger(u.w, s.pm) && PM.Enabled(u.w, s.pm, p) && Proxy.Sound(s.proxy, u.timeout)
    requires n == |s.proxy.sessions|
    requires u.app.Some? ==>
      && Waiting(s.proxy, Replies(s.pm.history, u.app.value))
      && forall i: nat ::
        Asked(s.pm.history, u.app.value, Caller(i)) + (if p == PM.UserRequires(u.app.value, Caller(i)) then 1 else 0)
          == if i < n then 1 else 0
    ensures Manage(u, s, p).Some? && Whole(u, Manage(u, s, p).value)
  {
    var pm := PM.Step(u.w, s.pm, p);
    assert Demand.Ledger(u.w, pm) by { Demand.StepLedger(u.w, s.pm, p); }
    if u.app.Some? {
      ManageAsks(u, s, p, n);
      ManageDelivers(u, s.proxy, s.pm, p);
    }
  }

  lemma {:induction false} ManageAsks(u: Setup, s: System, p: PM.Event, n: nat)
    requires u.Ok() && u.app.Some? && Valid(u.w, s.pm) && PM.Enabled(u.w, s.pm, p)
    requires forall i: nat ::
      Asked(s.pm.history, u.app.value, Caller(i)) + (if p == PM.UserRequires(u.app.value, Caller(i)) then 1 else 0)
        == if i < n then 1 else 0
    ensures forall i: nat :: Asked(PM.Step(u.w, s.pm, p).history, u.app.value, Caller(i)) == if i < n then 1 else 0
  {
    forall i: nat
      ensures Asked(PM.Step(u.w, s.pm, p).history, u.app.value, Caller(i)) == if i < n then 1 else 0
    {
      AskedByCalls(u.w, s.pm, p, u.app.value, Caller(i));
    }
  }

  lemma {:induction false} ManageDelivers(u: Setup, x: Proxy.State, s: State, p: PM.Event)
    requires u.Ok() && u.app.Some? && Valid(u.w, s) && PM.Enabled(u.w, s, p) && Proxy.Sound(x, u.timeout)
    requires Waiting(x, Replies(s.history, u.app.value)) && Demand.Ledger(u.w, PM.Step(u.w, s, p))
    requires forall i: nat ::
      Asked(PM.Step(u.w, s, p).history, u.app.value, Caller(i)) == if i < |x.sessions| then 1 else 0
    ensures var told, rs := Replies(s.history, u.app.value), Replies(PM.Step(u.w, s, p).history, u.app.value);
      && |told| <= |rs|
      && var r := Deliver(x, u.timeout, rs[|told|..]);
        r.Some? && Proxy.Sound(r.value, u.timeout) && Waiting(r.value, rs) && |r.value.sessions| == |x.sessions|
  {
    var told, rs := Replies(s.history, u.app.value), Replies(PM.Step(u.w, s, p).history, u.app.value);
    RepliesGrow(u.w, s, p, u.app.value);
    RepliesFit(u.w, PM.Step(u.w, s, p), u.app.value, |x.sessions|);
    assert rs[..|told|] == told;
    DeliverWorks(x, u.timeout, rs, |told|);
  }

  lemma {:induction false} RepliesGrow(w: World, s: State, p: PM.Event, a: nat)
    requires Valid(w, s) && PM.Enabled(w, s, p)
    ensures Replies(s.history, a) <= Replies(PM.Step(w, s, p).history, a)
  {
    Trail.StepTrail(w, s, p);
    TrailReplies(w, Trail.Heard(w, s, p), PM.Step(w, s, p).history, -1, |w.apps|, a);
    assert Replies(Trail.Heard(w, s, p), a) == Replies(s.history, a);
  }

  lemma {:induction false} StepWorks(u: Setup, s: System, e: Event)
    requires Whole(u, s) && Enabled(u, s, e)
    ensures Step(u, s, e).Some? && Whole(u, Step(u, s, e).value)
  {
    match e
    case Connection(writable) => ConnectionWorks(u, s, writable);
    case Process(p) =>
      assert u.app.Some? ==> forall i: nat :: p != PM.UserRequires(u.app.value, Caller(i));
      ManageWorks(u, s, p, |s.proxy.sessions|);
    case Socket(x) =>
      Proxy.StepSound(s.proxy, u.timeout, x);
      StageStays(s.proxy, u.timeout, x);
  }

  lemma {:induction false} ConnectionWorks(u: Setup, s: System, writable: bool)
    requires Whole(u, s)
    ensures Step(u, s, Connection(writable)).Some? && Whole(u, Step(u, s, Connection(writable)).value)
  {
    var i := |s.proxy.sessions|;
    var x := Proxy.Step(s.proxy, u.timeout, Proxy.Connection(writable));
    Proxy.StepSound(s.proxy, u.timeout, Proxy.Connection(writable));
    if u.app.Some? {
      assert forall j :: 0 <= j < |x.sessions| && j != i ==> x.sessions[j] == s.proxy.sessions[j];
      assert Waiting(x, Replies(s.pm.history, u.app.value));
      ManageWorks(u, s.(proxy := x), PM.UserRequires(u.app.value, Caller(i)), i + 1);
    } else {
      Proxy.StepSound(x, u.timeout, Proxy.Checked(i, 0));
    }
  }

  // Only the answer to its check moves a session on from it.
  lemma {:induction false} StageStays(s: Proxy.State, timeout: nat, x: Proxy.Event)
    requires Proxy.Enabled(s, x) && (x.Connector? || x.Forwarded?)
    ensures var r := Proxy.Step(s, timeout, x);
      |r.sessions| == |s.sessions| && forall i :: 0 <= i < |s.sessions| ==> r.sessions[i].stage == s.sessions[i].stage
  {
  }

  datatype Result = Impossible | Broken | Reached(s: System)

  // Impossible if an event of es was not possible when it came, broken if a session was given
  // an answer it was not waiting for.
  ghost function Run(u: Setup, es: seq<Event>): (r: Result)
    requires u.Ok()
    ensures r.Reached? ==> Valid(u.w, r.s.pm)
    decreases |es|
  {
    if es == [] then Reached(System(Initial(u.w), Proxy.NOTHING))
    else
      var n := |es| - 1;
      match Run(u, es[..n])
      case Impossible => Impossible
      case Broken => Broken
      case Reached(s) =>
        if !Enabled(u, s, es[n]) then Impossible
        else
          match Step(u, s, es[n])
          case None => Broken
          case Some(t) => if Valid(u.w, t.pm) then Reached(t) else Broken
  }

  // No run is ever broken: the manager answers each session at most once, only after it has
  // asked, and the proxy is always as its own promises say.
  lemma {:induction false} NeverBroken(u: Setup, es: seq<Event>)
    requires u.Ok()
    ensures Run(u, es) != Broken
    ensures Run(u, es).Reached? ==> Whole(u, Run(u, es).s)
    decreases |es|
  {
    if es == [] {
      Demand.InitialLedger(u.w);
    } else {
      var n := |es| - 1;
      NeverBroken(u, es[..n]);
      if Run(u, es[..n]).Reached? && Enabled(u, Run(u, es[..n]).s, es[n]) {
        StepWorks(u, Run(u, es[..n]).s, es[n]);
      }
    }
  }

  // ---------------------------------------------------------------- the proxy's part of a run

  function Checks(answers: seq<(nat, int)>): seq<Proxy.Event> {
    if answers == [] then [] else [Proxy.Checked(answers[0].0, answers[0].1)] + Checks(answers[1..])
  }

  lemma {:induction false} DeliverIsRun(s: Proxy.State, timeout: nat, answers: seq<(nat, int)>)
    requires Deliver(s, timeout, answers).Some?
    ensures Proxy.Run(s, timeout, Checks(answers)) == Deliver(s, timeout, answers)
    decreases |answers|
  {
    if answers != [] {
      var e := Proxy.Checked(answers[0].0, answers[0].1);
      DeliverIsRun(Proxy.Step(s, timeout, e), timeout, answers[1..]);
      assert Checks(answers)[1..] == Checks(answers[1..]);
    }
  }

  lemma {:induction false} RunTwice(s: Proxy.State, timeout: nat, es: seq<Proxy.Event>, fs: seq<Proxy.Event>)
    requires Proxy.Run(s, timeout, es).Some?
    ensures Proxy.Run(s, timeout, es + fs) == Proxy.Run(Proxy.Run(s, timeout, es).value, timeout, fs)
    decreases |es|
  {
    if es == [] {
      assert es + fs == fs;
    } else {
      RunTwice(Proxy.Step(s, timeout, es[0]), timeout, es[1..], fs);
      assert (es + fs)[1..] == es[1..] + fs;
    }
  }

  lemma {:induction false} RunOnce(s: Proxy.State, timeout: nat, e: Proxy.Event)
    requires Proxy.Enabled(s, e)
    ensures Proxy.Run(s, timeout, [e]) == Some(Proxy.Step(s, timeout, e))
  {
    assert [e][1..] == [];
  }

  // What a step of the system is to the proxy.
  lemma {:induction false} StepIsRun(u: Setup, s: System, e: Event) returns (xs: seq<Proxy.Event>)
    requires u.Ok() && Valid(u.w, s.pm) && Enabled(u, s, e) && Step(u, s, e).Some?
    ensures Proxy.Run(s.proxy, u.timeout, xs) == Some(Step(u, s, e).value.proxy)
  {
    match e
    case Connection(writable) =>
      var c, i := Proxy.Connection(writable), |s.proxy.sessions|;
      RunOnce(s.proxy, u.timeout, c);
      var x := Proxy.Step(s.proxy, u.timeout, c);
      var ys: seq<Proxy.Event>;
      if u.app.Some? {
        ys := ManageIsRun(u, s.(proxy := x), PM.UserRequires(u.app.value, Caller(i)));
      } else {
        RunOnce(x, u.timeout, Proxy.Checked(i, 0));
        ys := [Proxy.Checked(i, 0)];
      }
      RunTwice(s.proxy, u.timeout, [c], ys);
      xs := [c] + ys;
    case Process(p) => xs := ManageIsRun(u, s, p);
    case Socket(x) =>
      RunOnce(s.proxy, u.timeout, x);
      xs := [x];
  }

  lemma {:induction false} ManageIsRun(u: Setup, s: System, p: PM.Event) returns (xs: seq<Proxy.Event>)
    requires u.Ok() && Valid(u.w, s.pm) && PM.Enabled(u.w, s.pm, p) && Manage(u, s, p).Some?
    ensures Proxy.Run(s.proxy, u.timeout, xs) == Some(Manage(u, s, p).value.proxy)
  {
    if u.app.None? {
      xs := [];
    } else {
      var a := u.app.value;
      var answers := Replies(PM.Step(u.w, s.pm, p).history, a)[|Replies(s.pm.history, a)|..];
      DeliverIsRun(s.proxy, u.timeout, answers);
      xs := Checks(answers);
    }
  }

  // Every run of the system is a run of the proxy, so all that holds over those holds here:
  // what the proxy takes for granted of the manager and of the retry loop is what they do.
  lemma {:induction false} IsProxyRun(u: Setup, es: seq<Event>) returns (xs: seq<Proxy.Event>)
    requires u.Ok() && Run(u, es).Reached?
    ensures Proxy.Run(Proxy.NOTHING, u.timeout, xs) == Some(Run(u, es).s.proxy)
    decreases |es|
  {
    if es == [] {
      xs := [];
    } else {
      var n := |es| - 1;
      var ys := IsProxyRun(u, es[..n]);
      var zs := StepIsRun(u, Run(u, es[..n]).s, es[n]);
      RunTwice(Proxy.NOTHING, u.timeout, ys, zs);
      xs := ys + zs;
    }
  }

  // What the history says of an answer to session i.
  lemma {:induction false} ReplyOccurs(h: History, a: nat, k: nat) returns (past: History, p: Option<nat>)
    requires k < |Replies(h, a)|
    ensures ProcessRuns.Occurs(h, past, Invoked(a, User(Caller(Replies(h, a)[k].0)), p, Replies(h, a)[k].1))
  {
    if k < |Replies(h.past, a)| {
      past, p := ReplyOccurs(h.past, a, k);
    } else {
      past, p := h.past, h.entry.process;
    }
  }

  // A session is connected to its upstream only because the app of the upstream answered it
  // with 0, and it is refused only because of an error; where the app has a checker, the 0 was
  // given on a successful run of that checker.
  lemma {:induction false} StageIsAnswered(u: Setup, es: seq<Event>, i: nat) returns (past: History, p: Option<nat>, error: int)
    requires u.Ok() && u.app.Some? && Run(u, es).Reached? && i < |Run(u, es).s.proxy.sessions|
    requires Run(u, es).s.proxy.sessions[i].stage != Proxy.Checking
    ensures var s := Run(u, es).s; var a := u.app.value;
      && ProcessRuns.Occurs(s.pm.history, past, Invoked(a, User(Caller(i)), p, error))
      && s.proxy.sessions[i].stage == StageFor(error)
      && (s.proxy.sessions[i].stage == Proxy.Connecting && u.w.apps[a].checker ==> Books.CheckerSucceeded(past, a))
  {
    NeverBroken(u, es);
    var s, a := Run(u, es).s, u.app.value;
    var rs := Replies(s.pm.history, a);
    var k :| 0 <= k < |rs| && rs[k].0 == i;
    past, p := ReplyOccurs(s.pm.history, a, k);
    error := rs[k].1;
    ProcessRuns.OccursJustified(u.w, s.pm.history, past, Invoked(a, User(Caller(i)), p, error));
  }

  lemma {:induction false} OccursReply(h: History, past: History, a: nat, i: nat, p: Option<nat>, error: int) returns (k: nat)
    requires ProcessRuns.Occurs(h, past, Invoked(a, User(Caller(i)), p, error))
    ensures k < |Replies(h, a)| && Replies(h, a)[k] == (i, error)
  {
    if h.past == past && h.entry == Invoked(a, User(Caller(i)), p, error) {
      k := |Replies(past, a)|;
    } else {
      k := OccursReply(h.past, past, a, i, p, error);
    }
  }

  // And every answer gets through: a session that was answered with 0 goes on to connect, one that
  // was answered with an error is refused.
  lemma {:induction false} AnswerGetsThrough(u: Setup, es: seq<Event>, past: History, i: nat, p: Option<nat>, error: int)
    requires u.Ok() && u.app.Some? && Run(u, es).Reached?
    requires ProcessRuns.Occurs(Run(u, es).s.pm.history, past, Invoked(u.app.value, User(Caller(i)), p, error))
    ensures var x := Run(u, es).s.proxy;
      i < |x.sessions| && x.sessions[i].stage == if error == 0 then Proxy.Connecting else Proxy.Refused
  {
    NeverBroken(u, es);
    var k := OccursReply(Run(u, es).s.pm.history, past, u.app.value, i, p, error);
  }

  // A connection asks for the app of the upstream, once.
  lemma {:induction false} ConnectionAsks(u: Setup, es: seq<Event>, writable: bool)
    requires u.Ok() && u.app.Some? && Run(u, es).Reached?
    ensures var s := Run(u, es).s; var r := Step(u, s, Connection(writable));
      var a, i := u.app.value, |s.proxy.sessions|;
      r.Some? && Asked(s.pm.history, a, Caller(i)) == 0 && Asked(r.value.pm.history, a, Caller(i)) == 1
  {
    NeverBroken(u, es);
    var s := Run(u, es).s;
    assert Step(u, s, Connection(writable)).Some? by { StepWorks(u, s, Connection(writable)); }
    AskedByCalls(u.w, s.pm, PM.UserRequires(u.app.value, Caller(|s.proxy.sessions|)), u.app.value, Caller(|s.proxy.sessions|));
  }

  // Where the upstream names no app, it goes on to connect at once.
  lemma {:induction false} ConnectionGoesOn(u: Setup, s: System, writable: bool)
    requires u.Ok() && u.app.None? && Valid(u.w, s.pm)
    ensures var r := Step(u, s, Connection(writable));
      && r.Some? && r.value.pm == s.pm && |r.value.proxy.sessions| == |s.proxy.sessions| + 1
      && r.value.proxy.sessions[|s.proxy.sessions|].stage == Proxy.Connecting
  {
  }

  // No orphan, whatever the app of the upstream does.
  lemma {:induction false} NoOrphan(u: Setup, es: seq<Event>, i: nat, j: nat)
    requires u.Ok() && Run(u, es).Reached? && i < |Run(u, es).s.proxy.sessions|
    ensures var x := Run(u, es).s.proxy.sessions[i];
      x.connector.results != [] && x.forwarder.inc.Gone? && j in x.connector.handles ==> x.connector.handles[j].closing
  {
    var xs := IsProxyRun(u, es);
    Proxy.NoOrphan(u.timeout, xs, i, j);
  }
}
