/** When the manager knows every process it has started: as long as each is started after the
    last one of its app has exited, and each can be run. */
module ProcessChildren {
  import opened Common
  import opened ProcessState
  import opened ProcessSteps
  import opened ProcessCalm
  import opened ProcessRuns

  // The processes of `a` that were created and have not been reported to exit.
  function Living(h: History, a: nat): set<nat> {
    match h
    case Empty => {}
    case Then(past, e) =>
      if e.Spawned? && e.app == a then Living(past, a) + {e.child}
      else if e.ProcessExited? && e.app == a then Living(past, a) - {e.child}
      else Living(past, a)
  }

  // Every process was created when none of its app was left, and could be run.
  predicate Clean(w: World, h: History) {
    match h
    case Empty => true
    case Then(past, e) => (e.Spawned? ==> Living(past, e.app) == {} && w.spawn(e.child) == 0) && Clean(w, past)
  }

  ghost predicate Tracks(s: State) {
    forall a, p :: 0 <= a < |s.apps| ==> (p in Living(s.history, a) <==> p in s.processes && s.processes[p] == a)
  }

  // Every process still to exit is the one its app knows.
  ghost predicate AllSolo(s: State) {
    forall a :: 0 <= a < |s.apps| ==> Solo(s, a)
  }

  // What a cascade does: a process created over another, or one that cannot be run, leaves a
  // process its app does not know, and nothing but an exit mends that.
  ghost predicate Steady(w: World, s: State, r: State) {
    && |r.apps| == |s.apps| && Tracks(r)
    && (Clean(w, r.history) ==> Clean(w, s.history))
    && (AllSolo(r) ==> AllSolo(s))
    && (Clean(w, s.history) && AllSolo(s) ==> (AllSolo(r) <==> Clean(w, r.history)))
  }

  lemma {:induction false} SteadyTwice(w: World, s: State, m: State, r: State)
    requires Steady(w, s, m) && Steady(w, m, r)
    ensures Steady(w, s, r)
  {
  }

  // Processes are left alone.
  lemma {:induction false} PlainSteady(w: World, s: State, r: State)
    requires Tracks(s) && |r.apps| == |s.apps| && r.processes == s.processes
    requires forall a :: 0 <= a < |s.apps| ==> r.apps[a].process == s.apps[a].process
    requires r.history == s.history || (r.history.Then? && r.history.past == s.history
      && !r.history.entry.Spawned? && !r.history.entry.ProcessExited?)
    ensures Steady(w, s, r)
  {
    assert forall a :: 0 <= a < |s.apps| ==> Living(r.history, a) == Living(s.history, a);
    assert forall a :: 0 <= a < |s.apps| ==> Solo(r, a) == Solo(s, a);
    assert Clean(w, r.history) == Clean(w, s.history);
  }

  lemma {:induction false} SpawnTracks(w: World, s: State, a: nat)
    requires Valid(w, s) && a < |w.apps| && Tracks(s)
    ensures Tracks(Launching(s, a, 0)) && Tracks(NoProcess(Launching(s, a, 0), a))
  {
    var r, p := Launching(s, a, 0), s.nextId;
    forall b, q | 0 <= b < |s.apps| ensures q in Living(r.history, b) <==> q in r.processes && r.processes[q] == b {
      assert q in Living(s.history, b) <==> q in s.processes && s.processes[q] == b;
    }
  }

  // None of `a` is left exactly when none is still to exit.
  lemma {:induction false} NoneLiving(s: State, a: nat)
    requires Tracks(s) && a < |s.apps|
    ensures Living(s.history, a) == {} <==> NoProcessOf(s, a)
  {
    if Living(s.history, a) == {} {
      forall p | p in s.processes ensures s.processes[p] != a {
        assert p !in Living(s.history, a);
      }
    } else {
      var p :| p in Living(s.history, a);
      assert p in s.processes && s.processes[p] == a;
    }
  }

  // A process is created, and it is known unless it cannot be run.
  lemma {:induction false} SpawnSteady(w: World, s: State, a: nat)
    requires Valid(w, s) && a < |w.apps| && Tracks(s)
    ensures var r := Launching(s, a, 0);
      if w.spawn(s.nextId) == 0 then Steady(w, s, r) else Steady(w, s, NoProcess(r, a))
  {
    var r, p := Launching(s, a, 0), s.nextId;
    SpawnTracks(w, s, a);
    NoneLiving(s, a);
    assert p !in s.processes && r.processes[p] == a;
    if w.spawn(p) == 0 {
      forall b | 0 <= b < |s.apps| ensures Solo(r, b) <==> if b == a then NoProcessOf(s, a) else Solo(s, b) {
        if b == a { OnlyNew(s, r, a, p); } else { OthersSolo(s, r, b, p); }
      }
      if AllSolo(r) {
        forall b | 0 <= b < |s.apps| ensures Solo(s, b) { assert Solo(r, b); }
      }
      if AllSolo(s) && NoProcessOf(s, a) {
        forall b | 0 <= b < |s.apps| ensures Solo(r, b) { assert Solo(s, b); }
      }
      if AllSolo(r) { assert Solo(r, a); }
    } else {
      assert !Solo(NoProcess(r, a), a);
    }
  }

  lemma {:induction false} OnlyNew(s: State, r: State, a: nat, p: nat)
    requires a < |r.apps| && p !in s.processes && r.processes == s.processes[p := a] && r.apps[a].process == Some(p)
    ensures Solo(r, a) <==> NoProcessOf(s, a)
  {
    if !NoProcessOf(s, a) {
      var q :| q in s.processes && s.processes[q] == a;
      assert q in r.processes && r.processes[q] == a;
    }
  }

  lemma {:induction false} OthersSolo(s: State, r: State, b: nat, p: nat)
    requires b < |r.apps| == |s.apps| && p !in s.processes && p in r.processes && r.processes[p] != b
    requires r.processes == s.processes[p := r.processes[p]] && r.apps[b].process == s.apps[b].process
    ensures Solo(r, b) <==> Solo(s, b)
  {
    if !Solo(s, b) {
      var q :| q in s.processes && s.processes[q] == b && s.apps[b].process != Some(q);
      assert q in r.processes && r.processes[q] == b;
    }
  }

  // ---------------------------------------------------------------- the upward half

  lemma {:induction false} ClearSteady(w: World, s: State, a: nat, error: int)
    requires Valid(w, s) && a < |w.apps| && Tracks(s)
    ensures Steady(w, s, Clear(w, s, a, error))
    decreases |w.apps| - w.rank[a], 1, |s.apps[a].callbacks|
  {
    if s.apps[a].callbacks == [] {
      PlainSteady(w, s, s);
    } else {
      var cb, s1 := s.apps[a].callbacks[0], Pop(s, a);
      var s2 := Answer(w, s1, a, cb, error);
      PlainSteady(w, s, s1);
      AnswerSteady(w, s1, a, cb, error);
      SteadyTwice(w, s, s1, s2);
      ClearSteady(w, s2, a, error);
      SteadyTwice(w, s, s2, Clear(w, s2, a, error));
    }
  }

  lemma {:induction false} AnswerSteady(w: World, s: State, a: nat, cb: Callback, error: int)
    requires Valid(w, s) && a < |w.apps| && Linked(w, a, cb) && Tracks(s)
    ensures Steady(w, s, Answer(w, s, a, cb, error))
    decreases |w.apps| - w.rank[a], 0, 0
  {
    var s1 := Told(s, a, cb, error);
    PlainSteady(w, s, s1);
    if cb.Preamble? && s1.apps[cb.parent].pendingPreamble == 0 {
      LaunchSteady(w, s1, cb.parent, s1.apps[cb.parent].errorPreamble);
      SteadyTwice(w, s, s1, Answer(w, s, a, cb, error));
    }
  }

  lemma {:induction false} LaunchSteady(w: World, s: State, a: nat, error: int)
    requires Valid(w, s) && a < |w.apps| && Tracks(s)
    ensures Steady(w, s, Launch(w, s, a, error))
    decreases |w.apps| - w.rank[a], 2, 0
  {
    var s1, r := Launching(s, a, error), Launch(w, s, a, error);
    if error != 0 {
      PlainSteady(w, s, s1);
      ClearSteady(w, s1, a, error);
      SteadyTwice(w, s, s1, r);
    } else {
      SpawnSteady(w, s, a);
      if w.spawn(s.nextId) != 0 {
        ClearSteady(w, NoProcess(s1, a), a, w.spawn(s.nextId));
        SteadyTwice(w, s, NoProcess(s1, a), r);
      }
    }
  }

  // ---------------------------------------------------------------- the downward half

  lemma {:induction false} RequireSteady(w: World, s: State, a: nat, cb: Callback)
    requires Valid(w, s) && a < |w.apps| && Linked(w, a, cb) && Tracks(s)
    ensures Steady(w, s, Require(w, s, a, cb))
    decreases w.rank[a], 6, 0
  {
    var s1 := Push(s, a, cb);
    PlainSteady(w, s, s1);
    if s.apps[a].callbacks == [] {
      CheckForRequireSteady(w, s1, a);
      SteadyTwice(w, s, s1, CheckForRequire(w, s1, a));
    }
  }

  lemma {:induction false} CheckForRequireSteady(w: World, s: State, a: nat)
    requires Valid(w, s) && a < |w.apps| && Tracks(s)
    ensures Steady(w, s, CheckForRequire(w, s, a))
    decreases w.rank[a], 5, 0
  {
    if !w.apps[a].checker {
      CheckedSteady(w, s, a, 0);
    } else {
      var s1 := NewCheck(s, a, ForRequire);
      PlainSteady(w, s, s1);
      if w.spawn(s.nextId) != 0 {
        var s2 := s1.Log(CheckerFailed(a));
        PlainSteady(w, s, s2);
        CheckedSteady(w, s2, a, w.spawn(s.nextId));
        SteadyTwice(w, s, s2, CheckForRequire(w, s, a));
      }
    }
  }

  lemma {:induction false} CheckedSteady(w: World, s: State, a: nat, error: int)
    requires Valid(w, s) && a < |w.apps| && Tracks(s)
    ensures Steady(w, s, Checked(w, s, a, error))
    decreases w.rank[a], 4, 0
  {
    var app := s.apps[a];
    if error == 0 && (w.apps[a].checker || app.process.Some?) {
      ClearSteady(w, s, a, 0);
    } else if error == 0 || app.process.None? {
      var s1 := s.Put(a, app.(requireStartTime := s.now));
      PlainSteady(w, s, s1);
      StartSteady(w, s1, a);
      SteadyTwice(w, s, s1, Start(w, s1, a));
    } else {
      PlainSteady(w, s, s.Put(a, app.(restart := true)).Log(Killed(a, app.process.value)));
    }
  }

  lemma {:induction false} StartSteady(w: World, s: State, a: nat)
    requires Valid(w, s) && a < |w.apps| && Tracks(s)
    ensures Steady(w, s, Start(w, s, a))
    decreases w.rank[a], 3, 0
  {
    var s1 := Begin(w, s, a);
    PlainSteady(w, s, s1);
    if w.apps[a].preamble == [] { LaunchSteady(w, s1, a, 0); } else { PreamblesSteady(w, s1, a, 0); }
    SteadyTwice(w, s, s1, Start(w, s, a));
  }

  lemma {:induction false} PreamblesSteady(w: World, s: State, a: nat, i: nat)
    requires Valid(w, s) && a < |w.apps| && i <= |w.apps[a].preamble| && Tracks(s)
    ensures Steady(w, s, RequirePreambles(w, s, a, i))
    decreases w.rank[a], 2, |w.apps[a].preamble| - i
  {
    if i == |w.apps[a].preamble| {
      PlainSteady(w, s, s);
    } else {
      var s1 := Require(w, s, w.apps[a].preamble[i], Preamble(a, i));
      RequireSteady(w, s, w.apps[a].preamble[i], Preamble(a, i));
      PreamblesSteady(w, s1, a, i + 1);
      SteadyTwice(w, s, s1, RequirePreambles(w, s1, a, i + 1));
    }
  }

  // ---------------------------------------------------------------- events

  lemma {:induction false} TimerCheckedSteady(w: World, s: State, a: nat, t: nat, error: int)
    requires Valid(w, s) && a < |w.apps| && Tracks(s)
    ensures Steady(w, s, TimerChecked(w, s, a, t, error))
  {
    if Completes(w, s, a, error) {
      var s1 := CloseTimer(s, a, t);
      var s2 := Clear(w, s1, a, error);
      PlainSteady(w, s, s1);
      ClearSteady(w, s1, a, error);
      SteadyTwice(w, s, s1, s2);
      PlainSteady(w, s2, SetChecking(s2, a, false));
      SteadyTwice(w, s, s2, SetChecking(s2, a, false));
    } else {
      PlainSteady(w, s, SetChecking(s, a, false));
    }
  }

  lemma {:induction false} CheckForTimerSteady(w: World, s: State, a: nat, t: nat)
    requires Valid(w, s) && a < |w.apps| && Tracks(s)
    ensures Steady(w, s, CheckForTimer(w, s, a, t))
  {
    if !w.apps[a].checker {
      TimerCheckedSteady(w, s, a, t, 0);
    } else {
      var s1 := NewCheck(s, a, ForTimer(t));
      PlainSteady(w, s, s1);
      if w.spawn(s.nextId) != 0 {
        var s2 := s1.Log(CheckerFailed(a));
        PlainSteady(w, s, s2);
        TimerCheckedSteady(w, s2, a, t, w.spawn(s.nextId));
        SteadyTwice(w, s, s2, CheckForTimer(w, s, a, t));
      }
    }
  }

  lemma {:induction false} TickSteady(w: World, s: State, t: nat)
    requires Valid(w, s) && t in s.timers && Tracks(s)
    ensures Steady(w, s, Tick(w, s, t))
  {
    var a, s1, r := s.timers[t], s.Log(Ticked(s.timers[t])), Tick(w, s, t);
    PlainSteady(w, s, s1);
    if s.apps[a].callbacks == [] {
      PlainSteady(w, s1, r);
      SteadyTwice(w, s, s1, r);
    } else if !s.apps[a].checking {
      var s2 := CheckForTimer(w, s1, a, t);
      CheckForTimerSteady(w, s1, a, t);
      SteadyTwice(w, s, s1, s2);
      PlainSteady(w, s2, r);
      SteadyTwice(w, s, s2, r);
    }
  }

  lemma {:induction false} CheckReportedSteady(w: World, s: State, h: nat, status: int, signal: int)
    requires Valid(w, s) && h in s.checks && Tracks(s)
    ensures Steady(w, s, CheckReported(w, s, h, status, signal))
  {
    var s1, error := CheckSeen(s, h, status, signal), Int32(Outcome(status, signal));
    PlainSteady(w, s, s1);
    match s.checks[h].use {
      case ForRequire => CheckedSteady(w, s1, s.checks[h].app, error);
      case ForTimer(t) => TimerCheckedSteady(w, s1, s.checks[h].app, t, error);
    }
    SteadyTwice(w, s, s1, CheckReported(w, s, h, status, signal));
  }

  // What an event does: only an exit can make a process known again, by taking it away.
  ghost predicate Upright(w: World, s: State, r: State) {
    && Tracks(r)
    && (Clean(w, r.history) ==> Clean(w, s.history))
    && (Clean(w, s.history) && AllSolo(s) ==> (AllSolo(r) <==> Clean(w, r.history)))
  }

  // The exit of a process its app does not know makes the app forget the one it does know.
  lemma {:induction false} ExitSeenUpright(w: World, s: State, p: nat, status: int, signal: int)
    requires Valid(w, s) && p in s.processes && Tracks(s)
    ensures var r := ExitSeen(s, p, status, signal);
      Tracks(r) && Clean(w, r.history) == Clean(w, s.history) && (AllSolo(s) ==> AllSolo(r))
  {
    var a, r := s.processes[p], ExitSeen(s, p, status, signal);
    forall b | 0 <= b < |s.apps| && AllSolo(s) ensures Solo(r, b) {
      assert Solo(s, b);
    }
  }

  lemma {:induction false} ExitedUpright(w: World, s: State, p: nat, status: int, signal: int)
    requires Valid(w, s) && p in s.processes && Tracks(s)
    ensures Upright(w, s, Exited(w, s, p, status, signal))
  {
    var a, s1 := s.processes[p], ExitSeen(s, p, status, signal);
    ExitSeenUpright(w, s, p, status, signal);
    if Outcome(status, signal) != 0 {
      if s.apps[a].restart {
        var s2 := NoRestart(s1, a);
        PlainSteady(w, s1, s2);
        StartSteady(w, s2, a);
        SteadyTwice(w, s1, s2, Start(w, s2, a));
      } else if !w.apps[a].checker {
        ClearSteady(w, s1, a, Int32(Outcome(status, signal)));
      }
    }
  }

  lemma {:induction false} StepUpright(w: World, s: State, e: Event)
    requires Valid(w, s) && Enabled(w, s, e) && Tracks(s)
    ensures Upright(w, s, Step(w, s, e))
  {
    match e
    case UserRequires(a, id) =>
      var s1 := s.Log(Required(a));
      PlainSteady(w, s, s1);
      RequireSteady(w, s1, a, User(id));
      SteadyTwice(w, s, s1, Require(w, s1, a, User(id)));
    case CheckerExits(h, status, signal) => CheckReportedSteady(w, s, h, status, signal);
    case ProcessExits(p, status, signal) => ExitedUpright(w, s, p, status, signal);
    case TimerTicks(t) => TickSteady(w, s, t);
    case TimePasses(ms) => PlainSteady(w, s, s.(now := s.now + ms).Log(Passed(ms)));
  }

  // ---------------------------------------------------------------- every run

  ghost predicate AlwaysSolo(w: World, es: seq<Event>)
    requires w.Acyclic() && Run(w, es).Some?
    decreases |es|
  {
    AllSolo(Run(w, es).value) && (es != [] ==> AlwaysSolo(w, es[..|es| - 1]))
  }

  lemma {:induction false} RunTracks(w: World, es: seq<Event>)
    requires w.Acyclic() && Run(w, es).Some?
    ensures Tracks(Run(w, es).value)
    decreases |es|
  {
    if es != [] {
      var n := |es| - 1;
      RunTracks(w, es[..n]);
      StepUpright(w, Run(w, es[..n]).value, es[n]);
    }
  }

  // After every event every process still to exit is the one its app knows, if and only if
  // each was created when none of its app was left and could be run.
  lemma {:induction false} ProcessesAreKnown(w: World, es: seq<Event>)
    requires w.Acyclic() && Run(w, es).Some?
    ensures AlwaysSolo(w, es) <==> Clean(w, Run(w, es).value.history)
    decreases |es|
  {
    if es != [] {
      var n := |es| - 1;
      ProcessesAreKnown(w, es[..n]);
      RunTracks(w, es[..n]);
      StepUpright(w, Run(w, es[..n]).value, es[n]);
    }
  }
}
