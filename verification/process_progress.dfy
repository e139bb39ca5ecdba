/** No stuck waiter: an app with waiters always has something under way that will answer
    them, unless the process it killed for a restart reports a clean exit. */
module ProcessProgress {
  import opened Common
  import opened ProcessState
  import opened ProcessSteps

  // ---------------------------------------------------------------- what may be under way

  ghost predicate Asking(s: State, a: nat) {
    exists h :: h in s.checks && s.checks[h] == Check(a, ForRequire)
  }

  ghost predicate Exiting(s: State, a: nat) {
    exists p :: p in s.processes && s.processes[p] == a
  }

  ghost predicate Timing(s: State, a: nat) {
    exists t :: t in s.timers && s.timers[t] == a
  }

  ghost predicate TimerAsking(s: State, a: nat) {
    exists h :: h in s.checks && s.checks[h].app == a && s.checks[h].use.ForTimer?
  }

  // Something other than the exit of a killed process is under way for `a`.
  ghost predicate UnderWay(s: State, a: nat)
    requires a < |s.apps|
  {
    || s.apps[a].pendingPreamble > 0
    || Asking(s, a)
    || (Timing(s, a) && (!s.apps[a].checking || TimerAsking(s, a)))
  }

  ghost predicate Served(s: State, a: nat)
    requires a < |s.apps|
  {
    s.apps[a].callbacks == [] || UnderWay(s, a) || (s.apps[a].restart && Exiting(s, a))
  }

  // The current process of an app has yet to exit, and a timer's check is about its app.
  ghost predicate Tracked(s: State) {
    && (forall a :: 0 <= a < |s.apps| && s.apps[a].process.Some? ==>
      s.apps[a].process.value in s.processes && s.processes[s.apps[a].process.value] == a)
    && (forall h :: h in s.checks && s.checks[h].use.ForTimer? ==>
      && s.checks[h].use.timer < s.nextId
      && (s.checks[h].use.timer in s.timers ==> s.timers[s.checks[h].use.timer] == s.checks[h].app))
  }

  ghost predicate KeepsServing(s: State, r: State) {
    && Tracked(r)
    && |r.apps| == |s.apps|
    && forall b :: 0 <= b < |s.apps| && Served(s, b) ==> Served(r, b)
  }

  ghost predicate KeepsServingBut(s: State, r: State, a: nat) {
    && Tracked(r)
    && |r.apps| == |s.apps|
    && forall b :: 0 <= b < |s.apps| && b != a && Served(s, b) ==> Served(r, b)
  }

  // Nothing that is under way for b is taken away.
  ghost predicate NoWorse(s: State, r: State, b: nat)
    requires b < |s.apps| == |r.apps|
  {
    && (r.apps[b].callbacks == [] || s.apps[b].callbacks != [])
    && (s.apps[b].pendingPreamble > 0 ==> r.apps[b].pendingPreamble > 0)
    && (s.apps[b].restart ==> r.apps[b].restart)
    && (r.apps[b].checking ==> s.apps[b].checking)
    && (forall h :: h in s.checks && s.checks[h].app == b ==> h in r.checks && r.checks[h] == s.checks[h])
    && (forall p :: p in s.processes && s.processes[p] == b ==> p in r.processes && r.processes[p] == b)
    && (forall t :: t in s.timers && s.timers[t] == b ==> t in r.timers && r.timers[t] == b)
  }

  lemma {:induction false} StillServed(s: State, r: State, b: nat)
    requires b < |s.apps| == |r.apps| && NoWorse(s, r, b) && Served(s, b)
    ensures Served(r, b)
  {
  }

  lemma {:induction false} Carry(s: State, r: State)
    requires Tracked(r) && |s.apps| == |r.apps|
    requires forall b :: 0 <= b < |s.apps| ==> NoWorse(s, r, b)
    ensures KeepsServing(s, r)
  {
    forall b | 0 <= b < |s.apps| && Served(s, b) ensures Served(r, b) { StillServed(s, r, b); }
  }

  lemma {:induction false} CarryBut(s: State, r: State, a: nat)
    requires Tracked(r) && |s.apps| == |r.apps|
    requires forall b :: 0 <= b < |s.apps| && b != a ==> NoWorse(s, r, b)
    ensures KeepsServingBut(s, r, a)
  {
    forall b | 0 <= b < |s.apps| && b != a && Served(s, b) ensures Served(r, b) { StillServed(s, r, b); }
  }

  // ---------------------------------------------------------------- the upward half

  lemma {:induction false} ClearServes(w: World, s: State, a: nat, error: int)
    requires Valid(w, s) && a < |w.apps| && Tracked(s)
    ensures KeepsServing(s, Clear(w, s, a, error))
    decreases |w.apps| - w.rank[a], 1, |s.apps[a].callbacks|
  {
    if s.apps[a].callbacks != [] {
      var cb, s1 := s.apps[a].callbacks[0], Pop(s, a);
      Carry(s, s1);
      AnswerServes(w, s1, a, cb, error);
      ClearServes(w, Answer(w, s1, a, cb, error), a, error);
    }
  }

  lemma {:induction false} AnswerServes(w: World, s: State, a: nat, cb: Callback, error: int)
    requires Valid(w, s) && a < |w.apps| && Linked(w, a, cb) && Tracked(s)
    ensures KeepsServing(s, Answer(w, s, a, cb, error))
    decreases |w.apps| - w.rank[a], 0, 0
  {
    var s1 := Told(s, a, cb, error);
    if cb.Preamble? {
      CarryBut(s, s1, cb.parent);
      if s1.apps[cb.parent].pendingPreamble == 0 {
        LaunchServes(w, s1, cb.parent, s1.apps[cb.parent].errorPreamble);
      } else {
        Carry(s, s1);
      }
    } else {
      Carry(s, s1);
    }
  }

  lemma {:induction false} LaunchingServes(w: World, s: State, a: nat, error: int)
    requires Valid(w, s) && a < |w.apps| && Tracked(s)
    ensures var r := Launching(s, a, error);
      KeepsServingBut(s, r, a) && (error == 0 ==> Served(r, a) && Tracked(NoProcess(r, a)))
  {
    var s1 := Launching(s, a, error);
    CarryBut(s, s1, a);
    if error == 0 {
      assert s1.timers[s.nextId + 1] == a;
      assert Timing(s1, a);
    }
  }

  lemma {:induction false} LaunchServes(w: World, s: State, a: nat, error: int)
    requires Valid(w, s) && a < |w.apps| && Tracked(s)
    ensures var r := Launch(w, s, a, error); KeepsServingBut(s, r, a) && Served(r, a)
    decreases |w.apps| - w.rank[a], 2, 0
  {
    var s1 := Launching(s, a, error);
    LaunchingServes(w, s, a, error);
    if error != 0 {
      ClearServes(w, s1, a, error);
    } else if w.spawn(s.nextId) != 0 {
      Carry(s1, NoProcess(s1, a));
      ClearServes(w, NoProcess(s1, a), a, w.spawn(s.nextId));
    }
  }

  // ---------------------------------------------------------------- the downward half

  lemma {:induction false} RequireServes(w: World, s: State, a: nat, cb: Callback)
    requires Valid(w, s) && a < |w.apps| && Linked(w, a, cb) && Tracked(s)
    ensures KeepsServing(s, Require(w, s, a, cb))
    decreases w.rank[a], 6, 0
  {
    var s1 := Push(s, a, cb);
    CarryBut(s, s1, a);
    if |s1.apps[a].callbacks| > 1 {
      Carry(s, s1);
    } else {
      CheckForRequireServes(w, s1, a);
    }
  }

  lemma {:induction false} CheckForRequireServes(w: World, s: State, a: nat)
    requires Valid(w, s) && a < |w.apps| && Tracked(s)
    ensures var r := CheckForRequire(w, s, a); KeepsServingBut(s, r, a) && Served(r, a)
    decreases w.rank[a], 5, 0
  {
    if !w.apps[a].checker {
      CheckedServes(w, s, a, 0);
    } else {
      var s1, e := NewCheck(s, a, ForRequire), w.spawn(s.nextId);
      assert s1.checks[s.nextId] == Check(a, ForRequire);
      Carry(s, s1);
      if e != 0 {
        var s2 := s1.Log(CheckerFailed(a));
        Carry(s1, s2);
        CheckedServes(w, s2, a, e);
      }
    }
  }

  lemma {:induction false} CheckedServes(w: World, s: State, a: nat, error: int)
    requires Valid(w, s) && a < |w.apps| && Tracked(s)
    ensures var r := Checked(w, s, a, error); KeepsServingBut(s, r, a) && Served(r, a)
    decreases w.rank[a], 4, 0
  {
    var app := s.apps[a];
    if error == 0 && (w.apps[a].checker || app.process.Some?) {
      ClearServes(w, s, a, 0);
    } else if error != 0 && app.process.Some? {
      Carry(s, s.Put(a, app.(restart := true)).Log(Killed(a, app.process.value)));
    } else {
      var s1 := s.Put(a, app.(requireStartTime := s.now));
      Carry(s, s1);
      StartServes(w, s1, a);
    }
  }

  lemma {:induction false} StartServes(w: World, s: State, a: nat)
    requires Valid(w, s) && a < |w.apps| && Tracked(s)
    ensures var r := Start(w, s, a); KeepsServingBut(s, r, a) && Served(r, a)
    decreases w.rank[a], 3, 0
  {
    var s1 := Begin(w, s, a);
    CarryBut(s, s1, a);
    if w.apps[a].preamble == [] { LaunchServes(w, s1, a, 0); } else { PreamblesServe(w, s1, a, 0); }
  }

  lemma {:induction false} PreamblesServe(w: World, s: State, a: nat, i: nat)
    requires Valid(w, s) && a < |w.apps| && i <= |w.apps[a].preamble| && Tracked(s)
    ensures KeepsServing(s, RequirePreambles(w, s, a, i))
    decreases w.rank[a], 2, |w.apps[a].preamble| - i
  {
    if i < |w.apps[a].preamble| {
      RequireServes(w, s, w.apps[a].preamble[i], Preamble(a, i));
      PreamblesServe(w, Require(w, s, w.apps[a].preamble[i], Preamble(a, i)), a, i + 1);
    }
  }

  // ---------------------------------------------------------------- events

  ghost predicate AllServed(s: State) {
    forall b :: 0 <= b < |s.apps| ==> Served(s, b)
  }

  // The clean exit of a killed process whose restart is all that the waiters wait for.
  ghost predicate LosesRestart(s: State, e: Event) {
    && e.ProcessExits?
    && e.process in s.processes
    && s.processes[e.process] < |s.apps|
    && var a := s.processes[e.process];
      && Outcome(e.status, e.signal) == 0
      && s.apps[a].restart
      && s.apps[a].callbacks != []
      && !UnderWay(s, a)
      && (forall p :: p in s.processes && s.processes[p] == a ==> p == e.process)
  }

  // The result of a timer's check. What was waited for may have been that very check, so
  // the timer must still be open or the check still counted.
  lemma {:induction false} TimerCheckedServes(w: World, s: State, a: nat, t: nat, error: int)
    requires Valid(w, s) && a < |w.apps| && Tracked(s)
    requires t in s.timers ==> s.timers[t] == a
    ensures var r := TimerChecked(w, s, a, t, error);
      && KeepsServingBut(s, r, a)
      && (Served(s, a) || Timing(s, a) ==> Served(r, a))
      && (Completes(w, s, a, error) ==> r.apps[a].callbacks == [])
      && (!Completes(w, s, a, error) ==> r.checks == s.checks && r.timers == s.timers)
  {
    if Completes(w, s, a, error) {
      CompletedServes(w, s, a, t, error);
    } else {
      Carry(s, SetChecking(s, a, false));
    }
  }

  lemma {:induction false} CompletedServes(w: World, s: State, a: nat, t: nat, error: int)
    requires Valid(w, s) && a < |w.apps| && Tracked(s)
    requires t in s.timers ==> s.timers[t] == a
    requires Completes(w, s, a, error)
    ensures var r := TimerChecked(w, s, a, t, error);
      KeepsServingBut(s, r, a) && r.apps[a].callbacks == []
  {
    var s0 := CloseTimer(s, a, t);
    CarryBut(s, s0, a);
    ClearServes(w, s0, a, error);
    var s1 := Clear(w, s0, a, error);
    Carry(s1, SetChecking(s1, a, false));
  }

  lemma {:induction false} CheckForTimerServes(w: World, s: State, a: nat, t: nat)
    requires Valid(w, s) && a < |w.apps| && Tracked(s) && t in s.timers && s.timers[t] == a
    ensures var r := CheckForTimer(w, s, a, t);
      && KeepsServingBut(s, r, a)
      && (r.apps[a].callbacks == [] || (Timing(r, a) && TimerAsking(r, a)))
  {
    if !w.apps[a].checker {
      TimerCheckedServes(w, s, a, t, 0);
    } else {
      var s1, e := NewCheck(s, a, ForTimer(t)), w.spawn(s.nextId);
      assert s1.checks[s.nextId] == Check(a, ForTimer(t));
      assert s1.timers[t] == a;
      CarryBut(s, s1, a);
      if e != 0 {
        var s2 := s1.Log(CheckerFailed(a));
        CarryBut(s1, s2, a);
        TimerCheckedServes(w, s2, a, t, e);
        assert TimerAsking(s2, a) && Timing(s2, a);
      }
    }
  }

  lemma {:induction false} CheckingServes(s: State, a: nat)
    requires a < |s.apps| && Tracked(s)
    requires s.apps[a].callbacks == [] || (Timing(s, a) && TimerAsking(s, a))
    ensures var r := SetChecking(s, a, true); KeepsServingBut(s, r, a) && Served(r, a)
  {
    var r := SetChecking(s, a, true);
    CarryBut(s, r, a);
    assert Timing(r, a) == Timing(s, a) && TimerAsking(r, a) == TimerAsking(s, a);
  }

  lemma {:induction false} TickServes(w: World, s: State, t: nat)
    requires Valid(w, s) && t in s.timers && Tracked(s)
    ensures Tracked(Tick(w, s, t)) && (AllServed(s) ==> AllServed(Tick(w, s, t)))
  {
    var a := s.timers[t];
    var s1 := s.Log(Ticked(a));
    Carry(s, s1);
    if s.apps[a].callbacks == [] {
      CarryBut(s1, Tick(w, s, t), a);
    } else if !s.apps[a].checking {
      CheckForTimerServes(w, s1, a, t);
      CheckingServes(CheckForTimer(w, s1, a, t), a);
    }
  }

  lemma {:induction false} CheckReportedServes(w: World, s: State, h: nat, status: int, signal: int)
    requires Valid(w, s) && h in s.checks && Tracked(s)
    ensures var r := CheckReported(w, s, h, status, signal); Tracked(r) && (AllServed(s) ==> AllServed(r))
  {
    var a, s1, error := s.checks[h].app, CheckSeen(s, h, status, signal), Int32(Outcome(status, signal));
    CarryBut(s, s1, a);
    match s.checks[h].use
    case ForRequire => CheckedServes(w, s1, a, error);
    case ForTimer(t) =>
      if Served(s, a) { TimerReportSeen(s, h, status, signal); }
      TimerCheckedServes(w, s1, a, t, error);
  }

  // The timer whose check has just ended is open, or was not what the app relied on.
  lemma {:induction false} TimerReportSeen(s: State, h: nat, status: int, signal: int)
    requires h in s.checks && s.checks[h].use.ForTimer? && s.checks[h].app < |s.apps| && Served(s, s.checks[h].app)
    ensures var a, s1 := s.checks[h].app, CheckSeen(s, h, status, signal);
      Served(s1, a) || Timing(s1, a)
  {
    var a, s1 := s.checks[h].app, CheckSeen(s, h, status, signal);
    if Timing(s, a) {
      assert Timing(s1, a);
    } else if Asking(s, a) {
      var g :| g in s.checks && s.checks[g] == Check(a, ForRequire);
      assert g in s1.checks && s1.checks[g] == Check(a, ForRequire);
    } else if Exiting(s, a) {
      assert Exiting(s1, a);
    }
  }

  lemma {:induction false} CleanExit(s: State, p: nat, status: int, signal: int)
    requires p in s.processes && s.processes[p] < |s.apps| && Served(s, s.processes[p]) && Outcome(status, signal) == 0
    ensures Served(ExitSeen(s, p, status, signal), s.processes[p]) <==> !LosesRestart(s, ProcessExits(p, status, signal))
  {
    var a, s1 := s.processes[p], ExitSeen(s, p, status, signal);
    assert Asking(s1, a) == Asking(s, a) && Timing(s1, a) == Timing(s, a) && TimerAsking(s1, a) == TimerAsking(s, a);
    if q :| q in s.processes && s.processes[q] == a && q != p {
      assert q in s1.processes && s1.processes[q] == a;
    }
  }

  lemma {:induction false} ExitUnawaited(s: State, p: nat, status: int, signal: int)
    requires p in s.processes && s.processes[p] < |s.apps|
    requires Served(s, s.processes[p]) && !s.apps[s.processes[p]].restart
    ensures Served(ExitSeen(s, p, status, signal), s.processes[p])
  {
    var a, s1 := s.processes[p], ExitSeen(s, p, status, signal);
    assert Asking(s1, a) == Asking(s, a) && Timing(s1, a) == Timing(s, a) && TimerAsking(s1, a) == TimerAsking(s, a);
  }

  lemma {:induction false} ExitedServes(w: World, s: State, p: nat, status: int, signal: int)
    requires Valid(w, s) && p in s.processes && Tracked(s)
    ensures var r := Exited(w, s, p, status, signal);
      && Tracked(r)
      && (AllServed(s) ==> (AllServed(r) <==> !LosesRestart(s, ProcessExits(p, status, signal))))
  {
    var a, s1, outcome := s.processes[p], ExitSeen(s, p, status, signal), Outcome(status, signal);
    CarryBut(s, s1, a);
    if outcome == 0 {
      if Served(s, a) { CleanExit(s, p, status, signal); }
    } else if s.apps[a].restart {
      var s2 := NoRestart(s1, a);
      assert KeepsServingBut(s1, s2, a) by { CarryBut(s1, s2, a); }
      StartServes(w, s2, a);
    } else if !w.apps[a].checker {
      ClearServes(w, s1, a, Int32(outcome));
    } else if Served(s, a) {
      ExitUnawaited(s, p, status, signal);
    }
  }

  // Every event keeps all waiters served, except exactly the clean exit that loses a restart.
  lemma {:induction false} StepServes(w: World, s: State, e: Event)
    requires Valid(w, s) && Enabled(w, s, e) && Tracked(s)
    ensures Tracked(Step(w, s, e))
    ensures AllServed(s) ==> (AllServed(Step(w, s, e)) <==> !LosesRestart(s, e))
  {
    match e
    case UserRequires(a, id) =>
      Carry(s, s.Log(Required(a)));
      RequireServes(w, s.Log(Required(a)), a, User(id));
    case CheckerExits(h, status, signal) => CheckReportedServes(w, s, h, status, signal);
    case ProcessExits(p, status, signal) => ExitedServes(w, s, p, status, signal);
    case TimerTicks(t) => TickServes(w, s, t);
    case TimePasses(ms) => Carry(s, s.(now := s.now + ms).Log(Passed(ms)));
  }
}
