/** Every waiter can be told: from any state in which all are served, possible events that lose
    no restart take all that wait for an app to their answers. */
module ProcessLiveness {
  import opened Common
  import opened ProcessState
  import opened ProcessSteps
  import opened ProcessBooks
  import opened ProcessDemand
  import opened ProcessProgress
  import opened ProcessRuns
  import opened ProcessTrail
  import opened ProcessNotes
  import opened ProcessEffects

  // What holds after every event as long as no restart is lost.
  ghost predicate Sane(w: World, s: State) {
    Ledger(w, s) && Noted(w, s) && Tracked(s) && AllServed(s)
  }

  // The state after es, if each event was possible when it came and lost no restart.
  ghost function Onward(w: World, s: State, es: seq<Event>): (r: Option<State>)
    requires Valid(w, s)
    ensures r.Some? ==> Valid(w, r.value)
    decreases |es|
  {
    if es == [] then Some(s)
    else
      var n := |es| - 1;
      match Onward(w, s, es[..n])
      case None => None
      case Some(m) => if Enabled(w, m, es[n]) && !LosesRestart(m, es[n]) then Some(Step(w, m, es[n])) else None
  }

  lemma {:induction false} OnwardTwice(w: World, s: State, es: seq<Event>, fs: seq<Event>)
    requires Valid(w, s) && Onward(w, s, es).Some?
    ensures Onward(w, s, es + fs) == Onward(w, Onward(w, s, es).value, fs)
    decreases |fs|
  {
    if fs == [] {
      assert es + fs == es;
    } else {
      assert (es + fs)[..|es + fs| - 1] == es + fs[..|fs| - 1];
      OnwardTwice(w, s, es, fs[..|fs| - 1]);
    }
  }

  lemma {:induction false} OneStep(w: World, s: State, e: Event)
    requires Sane(w, s) && Enabled(w, s, e) && !LosesRestart(s, e)
    ensures Sane(w, Step(w, s, e)) && Onward(w, s, [e]) == Some(Step(w, s, e))
  {
    StepLedger(w, s, e);
    StepNoted(w, s, e);
    StepServes(w, s, e);
    assert [e][..0] == [];
    assert Onward(w, s, [e][..0]) == Some(s);
  }

  // ---------------------------------------------------------------- what stays as it is

  // g goes on from h, and no app ranked above `top` is started or has its process killed.
  predicate Beneath(w: World, h: History, g: History, top: int) {
    || h == g
    || (g.Then? && Beneath(w, h, g.past, top)
      && (g.entry.Started? || g.entry.Killed? ==> g.entry.app < |w.rank| && w.rank[g.entry.app] <= top))
  }

  lemma {:induction false} BeneathTwice(w: World, h: History, g: History, k: History, low: int, top: int)
    requires Beneath(w, h, g, low) && Beneath(w, g, k, top) && low <= top
    ensures Beneath(w, h, k, top)
  {
    if g != k {
      BeneathTwice(w, h, g, k.past, low, top);
    } else if h != g {
      BeneathTwice(w, h, g.past, g.past, low, top);
    }
  }

  lemma {:induction false} TrailBeneath(w: World, h: History, e: Entry, g: History, low: int, top: int)
    requires Trail(w, Then(h, e), g, low, top) && !e.Started? && !e.Killed?
    ensures Beneath(w, h, g, top)
  {
    if g != Then(h, e) {
      TrailBeneath(w, h, e, g.past, low, top);
    } else {
      assert Beneath(w, h, h, top);
    }
  }

  lemma {:induction false} BeneathGrows(w: World, h: History, g: History, top: int, a: nat)
    requires Beneath(w, h, g, top)
    ensures RegisteredOn(h, a) <= RegisteredOn(g, a) && InvokedOn(h, a) <= InvokedOn(g, a)
  {
    if h != g { BeneathGrows(w, h, g.past, top, a); }
  }

  lemma {:induction false} BeneathKeeps(w: World, h: History, g: History, top: int, a: nat)
    requires Beneath(w, h, g, top) && a < |w.rank| && w.rank[a] > top
    ensures KilledSince(g, a) ==> KilledSince(h, a)
    ensures HasStarted(h, a) ==> HasStarted(g, a)
  {
    if h != g { BeneathKeeps(w, h, g.past, top, a); }
  }

  // The answers to continuations of `a` that p has given.
  function Given(h: History, p: nat, a: nat): nat {
    |SlotsIn(InvokedOn(h, p), a)|
  }

  // What is answered of `a`, by whatever app p, is only added to.
  lemma {:induction false} BeneathAnswers(w: World, h: History, g: History, top: int, a: nat, p: nat)
    requires Beneath(w, h, g, top) && a < |w.rank| && w.rank[a] > top
    ensures |Answered(g, a)| - |Answered(h, a)| >= Given(g, p, a) - Given(h, p, a)
  {
    if h != g {
      BeneathAnswers(w, h, g.past, top, a, p);
      EntryAnswers(g.past, g.entry, p, a);
    }
  }

  lemma {:induction false} EntryAnswers(h: History, e: Entry, p: nat, a: nat)
    requires !(e.Started? && e.app == a)
    ensures |Answered(Then(h, e), a)| - |Answered(h, a)| >= Given(Then(h, e), p, a) - Given(h, p, a)
  {
    if e.Invoked? && e.app == p {
      SlotsInAppend(InvokedOn(h, p), e.callback, a);
      assert InvokedOn(Then(h, e), p) == InvokedOn(h, p) + [e.callback];
    } else {
      assert InvokedOn(Then(h, e), p) == InvokedOn(h, p);
    }
  }

  lemma {:induction false} SlotsInConcat(x: seq<Callback>, y: seq<Callback>, a: nat)
    ensures SlotsIn(x + y, a) == SlotsIn(x, a) + SlotsIn(y, a)
  {
    if x == [] {
      assert x + y == y;
    } else {
      assert (x + y)[1..] == x[1..] + y;
      SlotsInConcat(x[1..], y, a);
    }
  }

  // When all that waited for p were told, `a`, which waited among them, waits for fewer.
  lemma {:induction false} PendingFalls(w: World, s: State, r: State, p: nat, a: nat)
    requires Sane(w, s) && Sane(w, r) && p < |w.apps| && a < |w.apps| && w.rank[p] < w.rank[a]
    requires Beneath(w, s.history, r.history, w.rank[p])
    requires RegisteredOn(s.history, p) <= InvokedOn(r.history, p) && |SlotsIn(s.apps[p].callbacks, a)| > 0
    requires s.apps[a].pendingPreamble > 0
    ensures r.apps[a].pendingPreamble < s.apps[a].pendingPreamble
    ensures r.apps[a].restart ==> s.apps[a].restart
  {
    BeneathKeeps(w, s.history, r.history, w.rank[p], a);
    assert Counted(w, s, a) && Counted(w, r, a) && Fields(w, s, a) && Fields(w, r, a);
    assert |Answered(r.history, a)| > |Answered(s.history, a)| by {
      BeneathAnswers(w, s.history, r.history, w.rank[p], a, p);
      assert Balanced(s, p);
      GivenGrows(s, r, p, a);
    }
  }

  lemma {:induction false} GivenGrows(s: State, r: State, p: nat, a: nat)
    requires p < |s.apps| && Balanced(s, p) && |SlotsIn(s.apps[p].callbacks, a)| > 0
    requires RegisteredOn(s.history, p) <= InvokedOn(r.history, p)
    ensures Given(r.history, p, a) > Given(s.history, p, a)
  {
    var told, n := InvokedOn(r.history, p), |RegisteredOn(s.history, p)|;
    assert told == told[..n] + told[n..] && told[..n] == InvokedOn(s.history, p) + s.apps[p].callbacks;
    SlotsAdd(InvokedOn(s.history, p), s.apps[p].callbacks, a);
    SlotsAdd(told[..n], told[n..], a);
  }

  lemma {:induction false} SlotsAdd(x: seq<Callback>, y: seq<Callback>, a: nat)
    ensures |SlotsIn(x + y, a)| == |SlotsIn(x, a)| + |SlotsIn(y, a)|
  {
    SlotsInConcat(x, y, a);
  }

  // ---------------------------------------------------------------- events that tell

  // A checker of `a` reports success.
  lemma {:induction false} ReportTells(w: World, s: State, h: nat)
    requires Sane(w, s) && h in s.checks
    ensures var a, r := s.checks[h].app, Step(w, s, CheckerExits(h, 0, 0));
      r.apps[a].callbacks == [] && Beneath(w, s.history, r.history, w.rank[a])
  {
    var a, s1, e := s.checks[h].app, CheckSeen(s, h, 0, 0), CheckExited(s.checks[h].app, 0, 0);
    var s2 := if s.checks[h].use.ForRequire? then s1 else CloseTimer(s1, a, s.checks[h].use.timer);
    ClearLeads(w, s2, a, 0, -1, w.rank[a]);
    TrailBeneath(w, s.history, e, Clear(w, s2, a, 0).history, -1, w.rank[a]);
  }

  // A timer of `a` ticks: either all are told, or the checker of `a` is running.
  lemma {:induction false} TickMoves(w: World, s: State, t: nat)
    requires Sane(w, s) && t in s.timers && s.apps[s.timers[t]].callbacks != [] && !s.apps[s.timers[t]].checking
    ensures var a, r := s.timers[t], Step(w, s, TimerTicks(t));
      && Beneath(w, s.history, r.history, w.rank[a])
      && (r.apps[a].callbacks == [] || (s.nextId in r.checks && r.checks[s.nextId].app == a))
  {
    var a, s1 := s.timers[t], s.Log(Ticked(s.timers[t]));
    if w.apps[a].checker && w.spawn(s.nextId) == 0 {
      TickAsks(w, s, t);
      assert Beneath(w, s.history, s.history, w.rank[a]);
    } else {
      TickTells(w, s, t);
      TickBeneath(w, s, t);
    }
  }

  lemma {:induction false} TickBeneath(w: World, s: State, t: nat)
    requires Valid(w, s) && t in s.timers && s.apps[s.timers[t]].callbacks != [] && !s.apps[s.timers[t]].checking
    requires w.apps[s.timers[t]].checker ==> w.spawn(s.nextId) != 0
    ensures Beneath(w, s.history, Step(w, s, TimerTicks(t)).history, w.rank[s.timers[t]])
  {
    var a, s1 := s.timers[t], s.Log(Ticked(s.timers[t]));
    var top, r := w.rank[a], Step(w, s, TimerTicks(t));
    if !w.apps[a].checker {
      ClearLeads(w, CloseTimer(s1, a, t), a, 0, -1, top);
    } else {
      var s2, error := NewCheck(s1, a, ForTimer(t)).Log(CheckerFailed(a)), w.spawn(s.nextId);
      assert Trail(w, s1.history, s2.history, -1, top);
      if Completes(w, s2, a, error) {
        ClearLeads(w, CloseTimer(s2, a, t), a, error, -1, top);
        TrailTwice(w, s1.history, s2.history, r.history, -1, top);
      }
    }
    TrailBeneath(w, s.history, Ticked(a), r.history, -1, top);
  }

  // The killed process of `a` fails: `a` is started again, and waits for no other kill.
  lemma {:induction false} ExitMoves(w: World, s: State, p: nat)
    requires Sane(w, s) && p in s.processes && s.apps[s.processes[p]].restart
    ensures var a, r := s.processes[p], Step(w, s, ProcessExits(p, 1, 0));
      Beneath(w, s.history, r.history, w.rank[a]) && !KilledSince(r.history, a)
  {
    var a := s.processes[p];
    var s1 := NoRestart(ExitSeen(s, p, 1, 0), a);
    StartLeads(w, s1, a, -1, w.rank[a]);
    TrailBeneath(w, s.history, s1.history.entry, Start(w, s1, a).history, -1, w.rank[a]);
    StartKillsNone(w, s1, a);
  }

  lemma {:induction false} StartKillsNone(w: World, s: State, a: nat)
    requires Valid(w, s) && a < |w.apps|
    ensures KilledSince(Start(w, s, a).history, a) == KilledSince(s.history, a)
  {
    var s1 := Begin(w, s, a);
    if w.apps[a].preamble == [] {
      LaunchLeads(w, s1, a, 0, -1, -1);
      TrailKilled(w, s1.history, Start(w, s, a).history, -1, -1, a);
    } else {
      PreamblesKillNone(w, s1, a, 0);
    }
  }

  lemma {:induction false} PreamblesKillNone(w: World, s: State, a: nat, i: nat)
    requires Valid(w, s) && a < |w.apps| && i <= |w.apps[a].preamble|
    ensures KilledSince(RequirePreambles(w, s, a, i).history, a) == KilledSince(s.history, a)
    decreases |w.apps[a].preamble| - i
  {
    if i < |w.apps[a].preamble| {
      var p, cb := w.apps[a].preamble[i], Preamble(a, i);
      var s1 := Require(w, s, p, cb);
      RequireLeads(w, s, p, cb, -1, w.rank[p]);
      TrailKilled(w, Push(s, p, cb).history, s1.history, -1, w.rank[p], a);
      PreamblesKillNone(w, s1, a, i + 1);
    }
  }

  lemma {:induction false} TrailKilled(w: World, h: History, g: History, low: int, top: int, a: nat)
    requires Trail(w, h, g, low, top) && a < |w.rank| && w.rank[a] > top
    ensures KilledSince(g, a) == KilledSince(h, a)
  {
    if h != g { TrailKilled(w, h, g.past, low, top, a); }
  }

  // ---------------------------------------------------------------- what is due

  // What e does for those that wait for b: they have all been told, a tick has started the checker
  // of b, or b, whose process had been killed, is started again and waits for no kill.
  ghost predicate Furthers(w: World, s: State, b: nat, e: Event)
    requires Valid(w, s) && b < |w.apps| && Enabled(w, s, e)
  {
    var r := Step(w, s, e);
    || (r.apps[b].callbacks == [] && RegisteredOn(r.history, b) == InvokedOn(r.history, b))
    || (e.TimerTicks? && exists h :: h in r.checks && h !in s.checks && r.checks[h].app == b)
    || (e.ProcessExits? && KilledSince(s.history, b) && !KilledSince(r.history, b))
  }

  lemma {:induction false} DueFurthers(w: World, s: State, b: nat) returns (e: Event)
    requires Sane(w, s) && b < |w.apps| && s.apps[b].callbacks != [] && s.apps[b].pendingPreamble <= 0
    ensures Enabled(w, s, e) && !LosesRestart(s, e) && Furthers(w, s, b, e)
  {
    assert Served(s, b) && Fields(w, s, b);
    if h :| h in s.checks && s.checks[h].app == b {
      e := CheckerExits(h, 0, 0);
      OneStep(w, s, e);
      ReportTells(w, s, h);
      assert Balanced(Step(w, s, e), b);
    } else if t :| t in s.timers && s.timers[t] == b && !s.apps[b].checking {
      e := TimerTicks(t);
      OneStep(w, s, e);
      TickMoves(w, s, t);
      assert Balanced(Step(w, s, e), b);
    } else {
      var p :| p in s.processes && s.processes[p] == b;
      e := ProcessExits(p, 1, 0);
      ExitMoves(w, s, p);
    }
  }

  // Whoever has waiters waits on an app with waiters of its own for which an event is due.
  lemma {:induction false} SomethingIsDue(w: World, s: State, a: nat) returns (b: nat, e: Event)
    requires Sane(w, s) && a < |w.apps| && s.apps[a].callbacks != []
    ensures b < |w.apps| && s.apps[b].callbacks != [] && WaitsOn(w, s, a, b)
    ensures Enabled(w, s, e) && !LosesRestart(s, e) && Furthers(w, s, b, e)
    decreases w.rank[a]
  {
    if s.apps[a].pendingPreamble > 0 {
      AtMostQueued(w, s, a);
      var p, i := FindQueued(w, s, |s.apps|, a);
      b, e := SomethingIsDue(w, s, p);
    } else {
      b := a;
      e := DueFurthers(w, s, a);
    }
  }

  // ---------------------------------------------------------------- all that wait

  // Events that tell all that wait for `a`: its checker succeeds, its timer ticks, its killed
  // process fails; or all that wait for an app it waits for are told first.
  lemma {:induction false} TellWaiters(w: World, s: State, a: nat) returns (es: seq<Event>, r: State)
    requires Sane(w, s) && a < |w.apps|
    ensures Onward(w, s, es) == Some(r) && Sane(w, r) && Beneath(w, s.history, r.history, w.rank[a])
    ensures RegisteredOn(s.history, a) <= InvokedOn(r.history, a)
    decreases w.rank[a], if s.apps[a].restart then 1 else 0, if s.apps[a].pendingPreamble > 0 then s.apps[a].pendingPreamble else 0
  {
    assert Served(s, a);
    if s.apps[a].callbacks == [] {
      es, r := [], s;
      assert Balanced(s, a);
    } else if h :| h in s.checks && s.checks[h].app == a {
      es, r := ReportAll(w, s, h);
    } else if t :| t in s.timers && s.timers[t] == a && !s.apps[a].checking {
      es, r := TickAll(w, s, t);
    } else if s.apps[a].pendingPreamble > 0 {
      AtMostQueued(w, s, a);
      var p := FindPreamble(w, s, a);
      var fs, m := TellWaiters(w, s, p);
      PendingFalls(w, s, m, p, a);
      es, r := TellWaiters(w, m, a);
      es := Joined(w, s, fs, m, es, r, w.rank[p], a);
    } else {
      var p :| p in s.processes && s.processes[p] == a;
      var m := Restarted(w, s, p);
      es, r := TellWaiters(w, m, a);
      es := Joined(w, s, [ProcessExits(p, 1, 0)], m, es, r, w.rank[a], a);
    }
  }

  lemma {:induction false} FindPreamble(w: World, s: State, a: nat) returns (p: nat)
    requires Valid(w, s) && a < |w.apps| && |Queued(s.apps, |s.apps|, a)| > 0
    ensures p < |w.apps| && w.rank[p] < w.rank[a] && |SlotsIn(s.apps[p].callbacks, a)| > 0
  {
    p := FindQueue(s.apps, |s.apps|, a);
    var i := FindSlot(s.apps[p].callbacks, a);
    SlotIsLinked(w, s, p, a, i);
  }

  lemma {:induction false} Restarted(w: World, s: State, p: nat) returns (m: State)
    requires Sane(w, s) && p in s.processes && s.apps[s.processes[p]].restart
    ensures var a := s.processes[p];
      && Onward(w, s, [ProcessExits(p, 1, 0)]) == Some(m) && Sane(w, m) && !m.apps[a].restart
      && Beneath(w, s.history, m.history, w.rank[a])
  {
    m := Step(w, s, ProcessExits(p, 1, 0));
    OneStep(w, s, ProcessExits(p, 1, 0));
    ExitMoves(w, s, p);
    assert Fields(w, m, s.processes[p]);
  }

  // What tells all that wait for `a` after more events tells those that waited before.
  lemma {:induction false} Joined(w: World, s: State, fs: seq<Event>, m: State, gs: seq<Event>, r: State, low: int, a: nat)
      returns (es: seq<Event>)
    requires Valid(w, s) && Valid(w, m) && a < |w.apps| && Onward(w, s, fs) == Some(m) && Onward(w, m, gs) == Some(r)
    requires low <= w.rank[a] && Beneath(w, s.history, m.history, low) && Beneath(w, m.history, r.history, w.rank[a])
    requires RegisteredOn(m.history, a) <= InvokedOn(r.history, a)
    ensures Onward(w, s, es) == Some(r) && Beneath(w, s.history, r.history, w.rank[a])
    ensures RegisteredOn(s.history, a) <= InvokedOn(r.history, a)
  {
    es := fs + gs;
    OnwardTwice(w, s, fs, gs);
    BeneathTwice(w, s.history, m.history, r.history, low, w.rank[a]);
    BeneathGrows(w, s.history, m.history, low, a);
  }

  lemma {:induction false} NoneWaits(w: World, s: State, r: State, a: nat)
    requires Sane(w, r) && a < |w.apps| && r.apps[a].callbacks == [] && Beneath(w, s.history, r.history, w.rank[a])
    ensures RegisteredOn(s.history, a) <= InvokedOn(r.history, a)
  {
    BeneathGrows(w, s.history, r.history, w.rank[a], a);
    assert Balanced(r, a);
  }

  lemma {:induction false} ReportAll(w: World, s: State, h: nat) returns (es: seq<Event>, r: State)
    requires Sane(w, s) && h in s.checks
    ensures var a := s.checks[h].app;
      && Onward(w, s, es) == Some(r) && Sane(w, r) && Beneath(w, s.history, r.history, w.rank[a])
      && RegisteredOn(s.history, a) <= InvokedOn(r.history, a)
  {
    var e := CheckerExits(h, 0, 0);
    es, r := [e], Step(w, s, e);
    OneStep(w, s, e);
    ReportTells(w, s, h);
    NoneWaits(w, s, r, s.checks[h].app);
  }

  lemma {:induction false} TickAll(w: World, s: State, t: nat) returns (es: seq<Event>, r: State)
    requires Sane(w, s) && t in s.timers && s.apps[s.timers[t]].callbacks != [] && !s.apps[s.timers[t]].checking
    ensures var a := s.timers[t];
      && Onward(w, s, es) == Some(r) && Sane(w, r) && Beneath(w, s.history, r.history, w.rank[a])
      && RegisteredOn(s.history, a) <= InvokedOn(r.history, a)
  {
    var a, e := s.timers[t], TimerTicks(t);
    var m := Step(w, s, e);
    OneStep(w, s, e);
    TickMoves(w, s, t);
    if m.apps[a].callbacks == [] {
      es, r := [e], m;
      NoneWaits(w, s, r, a);
    } else {
      es, r := ReportAll(w, m, s.nextId);
      es := Joined(w, s, [e], m, es, r, w.rank[a], a);
    }
  }

  // ---------------------------------------------------------------- every run

  // From wherever a run that lost no restart has got to, all that wait for an app can be told:
  // more events, each possible and losing no restart, after which whoever had registered has
  // been called.
  lemma {:induction false} EveryWaiterCanBeTold(w: World, es: seq<Event>, a: nat) returns (fs: seq<Event>)
    requires w.Acyclic() && Run(w, es).Some? && NoRestartLost(w, es) && a < |w.apps|
    ensures Run(w, es + fs).Some? && NoRestartLost(w, es + fs)
    ensures RegisteredOn(Run(w, es).value.history, a) <= InvokedOn(Run(w, es + fs).value.history, a)
  {
    var s := Run(w, es).value;
    NoStuckWaiter(w, es);
    RunKeeps(w, es);
    RunNoted(w, es);
    var r: State;
    fs, r := TellWaiters(w, s, a);
    OnwardIsRun(w, es, fs);
  }

  lemma {:induction false} OnwardIsRun(w: World, es: seq<Event>, fs: seq<Event>)
    requires w.Acyclic() && Run(w, es).Some? && NoRestartLost(w, es) && Onward(w, Run(w, es).value, fs).Some?
    ensures Run(w, es + fs) == Onward(w, Run(w, es).value, fs) && NoRestartLost(w, es + fs)
    decreases |fs|
  {
    if fs == [] {
      assert es + fs == es;
    } else {
      assert (es + fs)[..|es + fs| - 1] == es + fs[..|fs| - 1];
      OnwardIsRun(w, es, fs[..|fs| - 1]);
    }
  }
}
