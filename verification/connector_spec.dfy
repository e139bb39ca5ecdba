/** Connecting with retries as a machine over values: a timer that starts one attempt at a
    time until one connects or the time is up. */
module ConnectorSpec {
  import opened Common

  const INTERVAL := 500

  datatype Timer = Ticking | Stopping | Freed

  datatype Phase = Resolving | Connecting | Connected | Failed

  // A client handle that has not been deleted. `subscribed` says that the three handlers of
  // the retry loop are on its lists.
  datatype Handle = Handle(phase: Phase, closing: bool, subscribed: bool)

  // `client` is the attempt the shared data of the loop points to, `results` what `then` has
  // been called with, `lastTick` the time of the last tick since the start.
  datatype State = State(timer: Timer, client: Option<nat>, handles: map<nat, Handle>, nextId: nat,
                         results: seq<Option<nat>>, lastTick: nat, attempts: nat)
  {
    function Put(i: nat, h: Handle): State {
      this.(handles := handles[i := h])
    }
  }

  function Initial(): State {
    State(Ticking, None, map[], 0, [], 0, 0)
  }

  datatype Event =
    | Tick(elapsed: nat)
    | Resolved(i: nat, ok: bool)
    | ConnectDone(i: nat, ok: bool, readable: bool)
    | Broken(i: nat)
    | CloseCalled(i: nat)
    | CloseDone(i: nat)
    | TimerGone

  // The timer ticks at intervals while it is not closed. Anyone who has been handed a client
  // may close it. A handle that is closing cannot start to connect nor connect; a connect
  // under way is cancelled before its close finishes.
  predicate Enabled(s: State, e: Event) {
    match e
    case Tick(elapsed) => s.timer == Ticking && elapsed >= s.lastTick + INTERVAL
    case Resolved(i, ok) => i in s.handles && s.handles[i].phase == Resolving && (ok ==> !s.handles[i].closing)
    case ConnectDone(i, ok, _) =>
      i in s.handles && s.handles[i].phase == Connecting && (ok ==> !s.handles[i].closing)
    case Broken(i) => i in s.handles && s.handles[i].phase == Connected && !s.handles[i].closing
    case CloseCalled(i) => i in s.handles
    case CloseDone(i) => i in s.handles && s.handles[i].closing && s.handles[i].phase != Connecting
    case TimerGone => s.timer == Stopping
  }

  function Close(s: State, i: nat): State {
    if i in s.handles then s.Put(i, s.handles[i].(closing := true)) else s
  }

  // The error handlers of handle i: that of the loop closes the client its data points to.
  function Fail(s: State, i: nat): State {
    if i in s.handles && s.handles[i].subscribed && s.client.Some? then Close(s, s.client.value) else s
  }

  function Attempt(s: State): State {
    s.(client := Some(s.nextId), handles := s.handles[s.nextId := Handle(Resolving, false, true)],
       nextId := s.nextId + 1, attempts := s.attempts + 1)
  }

  function Ticked(s: State, timeout: nat, elapsed: nat): State {
    var s1 := s.(lastTick := elapsed);
    if elapsed >= timeout then
      (if s.client.Some? then Close(s1, s.client.value) else s1).(timer := Stopping, results := s.results + [None])
    else if s.client.None? then Attempt(s1)
    else s1
  }

  function Connects(s: State, i: nat, readable: bool): State
    requires i in s.handles
  {
    var s1 := s.Put(i, s.handles[i].(phase := Connected));
    var s2 := if s.handles[i].subscribed then s1.(timer := Stopping, results := s.results + [s.client]) else s1;
    if readable then s2 else Fail(s2, i)
  }

  function HandleGone(s: State, i: nat): State
    requires i in s.handles
  {
    var s1 := s.(handles := s.handles - {i});
    if s.handles[i].subscribed then s1.(client := None) else s1
  }

  // The shared data is freed with the timer; its handlers come off a client that is there.
  function Release(s: State): State {
    var s1 := s.(timer := Freed, client := None);
    if s.client.Some? && s.client.value in s.handles
    then s1.Put(s.client.value, s.handles[s.client.value].(subscribed := false))
    else s1
  }

  function Step(s: State, timeout: nat, e: Event): State
    requires Enabled(s, e)
  {
    match e
    case Tick(elapsed) => Ticked(s, timeout, elapsed)
    case Resolved(i, ok) =>
      if ok then s.Put(i, s.handles[i].(phase := Connecting))
      else Fail(s.Put(i, s.handles[i].(phase := Failed)), i)
    case ConnectDone(i, ok, readable) =>
      if ok then Connects(s, i, readable) else Fail(s.Put(i, s.handles[i].(phase := Failed)), i)
    case Broken(i) => Fail(s, i)
    case CloseCalled(i) => Close(s, i)
    case CloseDone(i) => HandleGone(s, i)
    case TimerGone => Release(s)
  }

  // ---------------------------------------------------------------- the invariant

  ghost predicate Sound(s: State, timeout: nat) {
    && (forall i :: i in s.handles ==> i < s.nextId)
    && (forall i, j :: i in s.handles && j in s.handles ==> i == j)
    && (s.client.Some? ==> s.client.value in s.handles && s.handles[s.client.value].subscribed)
    && (forall i :: i in s.handles && s.handles[i].subscribed ==> s.timer != Freed && s.client == Some(i))
    && (s.timer == Freed ==> s.client == None)
    && (s.timer == Ticking ==> s.results == [] && forall i :: i in s.handles ==>
      s.handles[i].subscribed && s.handles[i].phase != Connected)
    && (s.timer != Ticking ==> |s.results| == 1)
    && (s.results == [None] ==> forall i :: i in s.handles ==> s.handles[i].closing && s.handles[i].phase != Connected)
    && (|s.results| == 1 && s.results[0].Some? ==>
      s.results[0].value < s.nextId && forall i :: i in s.handles ==> s.results[0] == Some(i) && s.handles[i].phase == Connected)
    && (forall i :: i in s.handles && s.handles[i].phase == Failed && s.handles[i].subscribed ==> s.handles[i].closing)
    && s.attempts * INTERVAL <= s.lastTick
    && (s.timer == Ticking && s.lastTick > 0 ==> s.lastTick < timeout)
    && (s.attempts > 0 ==> s.attempts * INTERVAL < timeout)
  }

  lemma {:induction false} TickSound(s: State, timeout: nat, elapsed: nat)
    requires Sound(s, timeout) && Enabled(s, Tick(elapsed))
    ensures Sound(Step(s, timeout, Tick(elapsed)), timeout)
  {
  }

  // Only an attempt that is not closing can connect, so the loop is still waiting for it.
  lemma {:induction false} ConnectsSound(s: State, timeout: nat, i: nat, readable: bool)
    requires Sound(s, timeout) && Enabled(s, ConnectDone(i, true, readable))
    ensures Sound(Connects(s, i, readable), timeout)
  {
    assert s.timer == Ticking && s.client == Some(i);
    assert s.results + [s.client] == [Some(i)];
  }

  lemma {:induction false} StepSound(s: State, timeout: nat, e: Event)
    requires Sound(s, timeout) && Enabled(s, e)
    ensures Sound(Step(s, timeout, e), timeout)
  {
    match e
    case Tick(elapsed) => TickSound(s, timeout, elapsed);
    case ConnectDone(i, ok, readable) => if ok { ConnectsSound(s, timeout, i, readable); }
    case _ =>
  }

  // ---------------------------------------------------------------- every run

  // The state after the events es, if each of them was possible when it came.
  function Run(timeout: nat, es: seq<Event>): Option<State>
    decreases |es|
  {
    if es == [] then Some(Initial())
    else
      var n := |es| - 1;
      match Run(timeout, es[..n])
      case None => None
      case Some(s) => if Enabled(s, es[n]) then Some(Step(s, timeout, es[n])) else None
  }

  lemma {:induction false} RunSound(timeout: nat, es: seq<Event>)
    requires Run(timeout, es).Some?
    ensures Sound(Run(timeout, es).value, timeout)
    decreases |es|
  {
    if es != [] {
      RunSound(timeout, es[..|es| - 1]);
      StepSound(Run(timeout, es[..|es| - 1]).value, timeout, es[|es| - 1]);
    }
  }

  // `then` is called exactly once, when the timer stops: with the client that has connected,
  // or with null, and then whatever attempt was under way is being closed.
  lemma {:induction false} ThenCalledOnce(timeout: nat, es: seq<Event>)
    requires Run(timeout, es).Some?
    ensures var s := Run(timeout, es).value;
      && |s.results| == (if s.timer == Ticking then 0 else 1)
      && (forall i :: i in s.handles ==>
        match s.timer
        case Ticking => s.handles[i].phase != Connected
        case _ => if s.results[0].None? then s.handles[i].closing && s.handles[i].phase != Connected
                  else s.results[0] == Some(i) && s.handles[i].phase == Connected)
  {
    RunSound(timeout, es);
  }

  // There is never more than one attempt, and the data of the loop points to it as long as
  // its handlers are subscribed; they run, and are taken off, only while both are there.
  lemma {:induction false} OneAttempt(timeout: nat, es: seq<Event>, i: nat)
    requires Run(timeout, es).Some?
    ensures var s := Run(timeout, es).value;
      && (i in s.handles ==> s.handles.Keys == {i})
      && (i in s.handles && s.handles[i].subscribed ==> s.timer != Freed && s.client == Some(i))
      && (s.client == Some(i) ==> i in s.handles && s.handles[i].subscribed)
  {
    RunSound(timeout, es);
  }

  // With ticks at least half a second apart, the time limits the attempts.
  lemma {:induction false} AttemptsBounded(timeout: nat, es: seq<Event>)
    requires Run(timeout, es).Some?
    ensures timeout >= 1 ==> Run(timeout, es).value.attempts <= (timeout - 1) / 500
    ensures timeout == 0 ==> Run(timeout, es).value.attempts == 0
  {
    RunSound(timeout, es);
  }

  // The loop cannot go on past its time: a tick at or after it stops the timer, and until
  // then a tick leaves an attempt under way, the one there was if there was one.
  lemma {:induction false} TickDecides(timeout: nat, es: seq<Event>, elapsed: nat)
    requires Run(timeout, es).Some? && Enabled(Run(timeout, es).value, Tick(elapsed))
    ensures var s := Run(timeout, es).value; var r := Step(s, timeout, Tick(elapsed));
      if elapsed >= timeout then r.results == [None] && r.timer == Stopping && forall i :: i in r.handles ==> r.handles[i].closing
      else
        && r.results == [] && r.client.Some? && r.client.value in r.handles
        && (s.client.Some? ==> r.client == s.client && r.handles == s.handles)
  {
    RunSound(timeout, es);
  }
  // An attempt that connects ends the loop, and it is handed on.
  lemma {:induction false} ConnectedIsHandedOn(timeout: nat, es: seq<Event>, i: nat, readable: bool)
    requires Run(timeout, es).Some? && Enabled(Run(timeout, es).value, ConnectDone(i, true, readable))
    ensures var s := Run(timeout, es).value; var r := Step(s, timeout, ConnectDone(i, true, readable));
      && s.results == [] && r.results == [Some(i)] && r.timer == Stopping
      && i in r.handles && (r.handles[i].closing <==> !readable)
  {
    RunSound(timeout, es);
    assert Run(timeout, es).value.client == Some(i);
  }

  // Whatever goes wrong with an attempt closes it; the loop goes on if its time is not up.
  lemma {:induction false} FailedIsClosed(timeout: nat, es: seq<Event>, i: nat, e: Event)
    requires Run(timeout, es).Some? && Enabled(Run(timeout, es).value, e)
    requires e in {Resolved(i, false), ConnectDone(i, false, true), ConnectDone(i, false, false), Broken(i)}
    requires Run(timeout, es).value.handles[i].subscribed
    ensures var s := Run(timeout, es).value; var r := Step(s, timeout, e);
      i in r.handles && r.handles[i].closing && r.results == s.results && r.timer == s.timer
  {
    RunSound(timeout, es);
  }

  // Once it is gone, the next tick that is not late starts another.
  lemma {:induction false} GoneIsRetried(timeout: nat, es: seq<Event>, i: nat, elapsed: nat)
    requires Run(timeout, es).Some? && Enabled(Run(timeout, es).value, CloseDone(i))
    requires var s := Run(timeout, es).value; s.timer == Ticking && s.lastTick + 500 <= elapsed < timeout
    ensures var s := Run(timeout, es).value; var m := Step(s, timeout, CloseDone(i));
      && m.handles == map[] && m.client == None
      && Enabled(m, Tick(elapsed))
      && var r := Step(m, timeout, Tick(elapsed));
        && r.handles == map[s.nextId := Handle(Resolving, false, true)] && r.client == Some(s.nextId)
        && r.attempts == s.attempts + 1 && r.results == []
  {
    RunSound(timeout, es);
    var s := Run(timeout, es).value;
    assert Step(s, timeout, CloseDone(i)).handles == map[];
  }
  // An attempt is under way that may yet connect.
  predicate Hopeful(s: State) {
    s.client.Some? && s.client.value in s.handles && !s.handles[s.client.value].closing
  }

  // How far the loop is from connecting, and the event that takes it there.
  function Distance(s: State): nat {
    if s.client.None? || s.client.value !in s.handles then 3
    else
      var h := s.handles[s.client.value];
      if h.closing then (if h.phase == Connecting then 5 else 4) else if h.phase == Resolving then 2 else 1
  }

  function Hop(s: State): Event {
    if s.client.None? || s.client.value !in s.handles then Tick(s.lastTick + 500)
    else
      var i, h := s.client.value, s.handles[s.client.value];
      if h.closing then (if h.phase == Connecting then ConnectDone(i, false, true) else CloseDone(i))
      else if h.phase == Resolving then Resolved(i, true)
      else ConnectDone(i, true, true)
  }

  lemma {:induction false} HopMoves(s: State, timeout: nat)
    requires Sound(s, timeout) && s.timer == Ticking && (s.lastTick + 500 < timeout || Hopeful(s))
    ensures Enabled(s, Hop(s))
    ensures var r := Step(s, timeout, Hop(s));
      if Distance(s) == 1 then
        |r.results| == 1 && r.results[0].Some? && r.results[0].value in r.handles && !r.handles[r.results[0].value].closing
      else Distance(r) < Distance(s) && r.timer == Ticking && (r.lastTick + 500 < timeout || Hopeful(r))
  {
  }

  // Where the events fs take the machine from s, if each of them is possible when it comes.
  function Onward(s: State, timeout: nat, fs: seq<Event>): Option<State>
    decreases |fs|
  {
    if fs == [] then Some(s)
    else if Enabled(s, fs[0]) then Onward(Step(s, timeout, fs[0]), timeout, fs[1..])
    else None
  }

  lemma {:induction false} RunOnward(timeout: nat, es: seq<Event>, fs: seq<Event>)
    requires Run(timeout, es).Some? && Onward(Run(timeout, es).value, timeout, fs).Some?
    ensures Run(timeout, es + fs) == Onward(Run(timeout, es).value, timeout, fs)
    decreases |fs|
  {
    if fs == [] {
      assert es + fs == es;
    } else {
      assert (es + [fs[0]])[..|es|] == es;
      RunOnward(timeout, es + [fs[0]], fs[1..]);
      assert es + [fs[0]] + fs[1..] == es + fs;
    }
  }

  lemma {:induction false} HopsConnect(s: State, timeout: nat) returns (fs: seq<Event>)
    requires Sound(s, timeout) && s.timer == Ticking && (s.lastTick + 500 < timeout || Hopeful(s))
    ensures var r := Onward(s, timeout, fs);
      r.Some? && |r.value.results| == 1 && r.value.results[0].Some?
      && var i := r.value.results[0].value; i in r.value.handles && !r.value.handles[i].closing
    decreases Distance(s)
  {
    HopMoves(s, timeout);
    var m := Step(s, timeout, Hop(s));
    fs := [];
    if Distance(s) != 1 {
      StepSound(s, timeout, Hop(s));
      fs := HopsConnect(m, timeout);
    }
    assert ([Hop(s)] + fs)[1..] == fs;
    fs := [Hop(s)] + fs;
  }

  // As long as there is time for another tick, or an attempt under way, the loop can still connect.
  lemma {:induction false} CanConnect(timeout: nat, es: seq<Event>) returns (fs: seq<Event>)
    requires Run(timeout, es).Some? && Run(timeout, es).value.timer == Ticking
    requires var s := Run(timeout, es).value; s.lastTick + 500 < timeout || Hopeful(s)
    ensures Run(timeout, es + fs).Some?
    ensures var r := Run(timeout, es + fs).value;
      |r.results| == 1 && r.results[0].Some? && r.results[0].value in r.handles && !r.handles[r.results[0].value].closing
  {
    RunSound(timeout, es);
    fs := HopsConnect(Run(timeout, es).value, timeout);
    RunOnward(timeout, es, fs);
  }
}
