/** Why no app is started while it still waits for its preambles: when every app that is
    required anew has no start timer open and no stray process, and every checker starts, each
    app goes through its phases one at a time. */
module ProcessCalm {
  import opened Common
  import opened ProcessState
  import opened ProcessSteps
  import opened ProcessBooks
  import opened ProcessProgress

  // Every app that was required anew was quiet, and every checker started.
  predicate Orderly(h: History) {
    match h
    case Empty => true
    case Then(past, e) => (e.Registered? ==> e.quiet) && !e.CheckerFailed? && Orderly(past)
  }

  ghost predicate NoCheck(s: State, a: nat) {
    forall h :: h in s.checks ==> s.checks[h].app != a
  }

  ghost predicate NoTimer(s: State, a: nat) {
    forall t :: t in s.timers ==> s.timers[t] != a
  }

  ghost predicate NoProcessOf(s: State, a: nat) {
    forall p :: p in s.processes ==> s.processes[p] != a
  }

  ghost predicate Solo(s: State, a: nat)
    requires a < |s.apps|
  {
    forall p :: p in s.processes && s.processes[p] == a ==> s.apps[a].process == Some(p)
  }

  // At most one of: a check under way, preambles awaited, a kill awaited.
  ghost predicate Calm(w: World, s: State, a: nat)
    requires a < |s.apps| == |w.apps|
  {
    var app := s.apps[a];
    && (forall h, g :: h in s.checks && g in s.checks && s.checks[h].app == s.checks[g].app == a ==> h == g)
    && (!NoCheck(s, a) ==>
      w.apps[a].checker && app.callbacks != [] && app.pendingPreamble <= 0 && !app.restart)
    && (forall h :: h in s.checks && s.checks[h].app == a ==>
      if s.checks[h].use.ForRequire? then NoTimer(s, a) && Solo(s, a) else app.checking)
    && (app.pendingPreamble > 0 ==>
      app.callbacks != [] && NoCheck(s, a) && NoTimer(s, a) && NoProcessOf(s, a) && !app.restart)
    && (app.restart ==> app.callbacks != [] && NoCheck(s, a) && NoTimer(s, a) && Solo(s, a))
  }

  ghost predicate Peace(w: World, s: State)
    requires |s.apps| == |w.apps|
  {
    Orderly(s.history) ==> Undisturbed(s.history) && forall b :: 0 <= b < |s.apps| ==> Calm(w, s, b)
  }

  // `a` may be answered: it waits for nothing.
  ghost predicate Clearable(s: State, a: nat)
    requires a < |s.apps|
  {
    Orderly(s.history) ==> s.apps[a].pendingPreamble <= 0 && NoCheck(s, a) && !s.apps[a].restart
  }

  // `a` has just been asked for.
  ghost predicate Fresh(s: State, a: nat)
    requires a < |s.apps|
  {
    && Clearable(s, a)
    && (Orderly(s.history) ==> s.apps[a].callbacks != [] && NoTimer(s, a) && Solo(s, a))
  }

  // `a` may be started.
  ghost predicate Vacant(s: State, a: nat)
    requires a < |s.apps|
  {
    Clearable(s, a) && (Orderly(s.history) ==> NoTimer(s, a) && NoProcessOf(s, a))
  }

  // Nothing about b has changed that its phase depends on.
  ghost predicate SamePhase(s: State, r: State, b: nat)
    requires b < |s.apps| == |r.apps|
  {
    && r.apps[b].(errorPreamble := 0, checkerTimer := None, requireStartTime := 0)
       == s.apps[b].(errorPreamble := 0, checkerTimer := None, requireStartTime := 0)
    && (forall h :: h in r.checks && r.checks[h].app == b ==> h in s.checks && s.checks[h] == r.checks[h])
    && (forall h :: h in s.checks && s.checks[h].app == b ==> h in r.checks && s.checks[h] == r.checks[h])
    && (forall t :: t in r.timers && r.timers[t] == b <==> t in s.timers && s.timers[t] == b)
    && (forall p :: p in r.processes && r.processes[p] == b <==> p in s.processes && s.processes[p] == b)
  }

  lemma {:induction false} StaysCalm(w: World, s: State, r: State, b: nat)
    requires b < |s.apps| == |r.apps| == |w.apps| && SamePhase(s, r, b) && Calm(w, s, b)
    ensures Calm(w, r, b)
  {
    assert NoCheck(r, b) == NoCheck(s, b);
    assert NoTimer(r, b) == NoTimer(s, b);
    assert NoProcessOf(r, b) == NoProcessOf(s, b);
    assert Solo(r, b) == Solo(s, b);
  }

  // A change that concerns `a` alone.
  lemma {:induction false} OthersCalm(w: World, s: State, r: State, a: nat)
    requires |s.apps| == |r.apps| == |w.apps| && Peace(w, s)
    requires Orderly(r.history) ==> Orderly(s.history) && Undisturbed(r.history)
    requires forall b :: 0 <= b < |s.apps| && b != a ==> SamePhase(s, r, b)
    requires Orderly(r.history) && a < |s.apps| ==> Calm(w, r, a)
    ensures Peace(w, r)
  {
    if Orderly(r.history) {
      forall b | 0 <= b < |s.apps| ensures Calm(w, r, b) {
        if b != a { StaysCalm(w, s, r, b); }
      }
    }
  }

  // ---------------------------------------------------------------- the upward half

  lemma {:induction false} ClearCalm(w: World, s: State, a: nat, error: int)
    requires Valid(w, s) && a < |w.apps| && Peace(w, s) && Clearable(s, a)
    ensures var r := Clear(w, s, a, error);
      Peace(w, r) && Orderly(r.history) == Orderly(s.history) && r.checks == s.checks
    decreases |w.apps| - w.rank[a], 1, |s.apps[a].callbacks|
  {
    if s.apps[a].callbacks != [] {
      var cb, s1 := s.apps[a].callbacks[0], Pop(s, a);
      PopCalm(w, s, a);
      AnswerCalm(w, s1, a, cb, error);
      ClearCalm(w, Answer(w, s1, a, cb, error), a, error);
    }
  }

  lemma {:induction false} PopCalm(w: World, s: State, a: nat)
    requires Valid(w, s) && a < |w.apps| && Peace(w, s) && Clearable(s, a) && s.apps[a].callbacks != []
    ensures Peace(w, Pop(s, a)) && Clearable(Pop(s, a), a)
  {
    var r := Pop(s, a);
    if Orderly(s.history) {
      assert Calm(w, s, a) && NoCheck(r, a) && NoTimer(r, a) == NoTimer(s, a) && Solo(r, a) == Solo(s, a);
    }
    OthersCalm(w, s, r, a);
  }

  lemma {:induction false} AnswerCalm(w: World, s: State, a: nat, cb: Callback, error: int)
    requires Valid(w, s) && a < |w.apps| && Linked(w, a, cb) && Peace(w, s)
    ensures var r := Answer(w, s, a, cb, error);
      Peace(w, r) && Orderly(r.history) == Orderly(s.history) && r.checks == s.checks
    decreases |w.apps| - w.rank[a], 0, 0
  {
    var s1 := Told(s, a, cb, error);
    ToldCalm(w, s, a, cb, error);
    if cb.Preamble? && s1.apps[cb.parent].pendingPreamble == 0 {
      LaunchCalm(w, s1, cb.parent, s1.apps[cb.parent].errorPreamble);
    }
  }

  lemma {:induction false} ToldCalm(w: World, s: State, a: nat, cb: Callback, error: int)
    requires Valid(w, s) && a < |w.apps| && Linked(w, a, cb) && Peace(w, s)
    ensures var r := Told(s, a, cb, error);
      && Peace(w, r)
      && (cb.Preamble? && r.apps[cb.parent].pendingPreamble == 0 ==> Vacant(r, cb.parent))
  {
    var r := Told(s, a, cb, error);
    if cb.Preamble? {
      var b := cb.parent;
      if Orderly(s.history) {
        assert Calm(w, s, b);
        assert NoCheck(r, b) == NoCheck(s, b) && NoTimer(r, b) == NoTimer(s, b)
          && NoProcessOf(r, b) == NoProcessOf(s, b) && Solo(r, b) == Solo(s, b);
      }
      OthersCalm(w, s, r, b);
    } else {
      OthersCalm(w, s, r, |s.apps|);
    }
  }

  lemma {:induction false} LaunchingCalm(w: World, s: State, a: nat, error: int)
    requires Valid(w, s) && a < |w.apps| && Peace(w, s) && Vacant(s, a)
    ensures var r := Launching(s, a, error);
      Peace(w, r) && Clearable(r, a) && Orderly(r.history) == Orderly(s.history)
  {
    var r := Launching(s, a, error);
    if Orderly(s.history) {
      assert Calm(w, s, a) && NoCheck(r, a) && Solo(r, a);
      assert error != 0 ==> NoTimer(r, a) && NoProcessOf(r, a);
    }
    OthersCalm(w, s, r, a);
  }

  lemma {:induction false} NoProcessCalm(w: World, s: State, a: nat)
    requires Valid(w, s) && a < |w.apps| && Peace(w, s) && Clearable(s, a)
    ensures Peace(w, NoProcess(s, a)) && Clearable(NoProcess(s, a), a)
  {
    var r := NoProcess(s, a);
    if Orderly(s.history) {
      assert Calm(w, s, a) && NoCheck(r, a) && NoTimer(r, a) == NoTimer(s, a) && NoProcessOf(r, a) == NoProcessOf(s, a);
    }
    OthersCalm(w, s, r, a);
  }

  lemma {:induction false} LaunchCalm(w: World, s: State, a: nat, error: int)
    requires Valid(w, s) && a < |w.apps| && Peace(w, s) && Vacant(s, a)
    ensures var r := Launch(w, s, a, error);
      Peace(w, r) && Orderly(r.history) == Orderly(s.history) && r.checks == s.checks
    decreases |w.apps| - w.rank[a], 2, 0
  {
    var s1 := Launching(s, a, error);
    LaunchingCalm(w, s, a, error);
    if error != 0 {
      ClearCalm(w, s1, a, error);
    } else if w.spawn(s.nextId) != 0 {
      NoProcessCalm(w, s1, a);
      ClearCalm(w, NoProcess(s1, a), a, w.spawn(s.nextId));
    }
  }

  // ---------------------------------------------------------------- the downward half

  lemma {:induction false} PushCalm(w: World, s: State, a: nat, cb: Callback)
    requires Valid(w, s) && a < |w.apps| && Peace(w, s)
    ensures var r := Push(s, a, cb);
      && Peace(w, r)
      && (Orderly(r.history) ==> Orderly(s.history))
      && (s.apps[a].callbacks == [] ==> Fresh(r, a))
  {
    var r := Push(s, a, cb);
    if Orderly(r.history) {
      assert Calm(w, s, a);
      assert NoCheck(r, a) == NoCheck(s, a) && NoTimer(r, a) == NoTimer(s, a)
        && NoProcessOf(r, a) == NoProcessOf(s, a) && Solo(r, a) == Solo(s, a);
    }
    OthersCalm(w, s, r, a);
  }

  lemma {:induction false} RequireCalm(w: World, s: State, a: nat, cb: Callback)
    requires Valid(w, s) && a < |w.apps| && Linked(w, a, cb) && Peace(w, s)
    ensures var r := Require(w, s, a, cb);
      Peace(w, r) && (Orderly(r.history) ==> Orderly(s.history))
    decreases w.rank[a], 6, 0
  {
    PushCalm(w, s, a, cb);
    if s.apps[a].callbacks == [] { CheckForRequireCalm(w, Push(s, a, cb), a); }
  }

  lemma {:induction false} CheckForRequireCalm(w: World, s: State, a: nat)
    requires Valid(w, s) && a < |w.apps| && Peace(w, s) && Fresh(s, a)
    ensures var r := CheckForRequire(w, s, a);
      Peace(w, r) && (Orderly(r.history) ==> Orderly(s.history))
    decreases w.rank[a], 5, 0
  {
    if !w.apps[a].checker {
      CheckedCalm(w, s, a, 0);
    } else {
      var s1, e := NewCheck(s, a, ForRequire), w.spawn(s.nextId);
      NewCheckCalm(w, s, a);
      if e != 0 {
        var s2 := s1.Log(CheckerFailed(a));
        assert !Orderly(s2.history);
        CheckedCalm(w, s2, a, e);
      }
    }
  }

  lemma {:induction false} NewCheckCalm(w: World, s: State, a: nat)
    requires Valid(w, s) && a < |w.apps| && Peace(w, s) && Fresh(s, a) && w.apps[a].checker
    ensures Peace(w, NewCheck(s, a, ForRequire))
  {
    var r := NewCheck(s, a, ForRequire);
    if Orderly(s.history) {
      assert Calm(w, s, a) && NoTimer(r, a) && Solo(r, a);
    }
    OthersCalm(w, s, r, a);
  }

  lemma {:induction false} CheckedCalm(w: World, s: State, a: nat, error: int)
    requires Valid(w, s) && a < |w.apps| && Peace(w, s) && Fresh(s, a)
    ensures var r := Checked(w, s, a, error);
      Peace(w, r) && (Orderly(r.history) ==> Orderly(s.history))
    decreases w.rank[a], 4, 0
  {
    var app := s.apps[a];
    if error == 0 && (w.apps[a].checker || app.process.Some?) {
      ClearCalm(w, s, a, 0);
    } else if error != 0 && app.process.Some? {
      KillCalm(w, s, a);
    } else {
      var s1 := s.Put(a, app.(requireStartTime := s.now));
      if Orderly(s.history) {
        assert NoCheck(s1, a) && NoTimer(s1, a) && NoProcessOf(s1, a);
        StaysCalm(w, s, s1, a);
      }
      OthersCalm(w, s, s1, a);
      StartCalm(w, s1, a);
    }
  }

  lemma {:induction false} KillCalm(w: World, s: State, a: nat)
    requires Valid(w, s) && a < |w.apps| && Peace(w, s) && Fresh(s, a) && s.apps[a].process.Some?
    ensures Peace(w, s.Put(a, s.apps[a].(restart := true)).Log(Killed(a, s.apps[a].process.value)))
  {
    var r := s.Put(a, s.apps[a].(restart := true)).Log(Killed(a, s.apps[a].process.value));
    if Orderly(s.history) {
      assert Calm(w, s, a) && NoCheck(r, a) && NoTimer(r, a) && Solo(r, a);
    }
    OthersCalm(w, s, r, a);
  }

  lemma {:induction false} BeginCalm(w: World, s: State, a: nat)
    requires Valid(w, s) && a < |w.apps| && Peace(w, s) && Vacant(s, a)
    requires Orderly(s.history) ==> s.apps[a].callbacks != []
    ensures var r := Begin(w, s, a);
      && Peace(w, r)
      && (w.apps[a].preamble == [] ==> Vacant(r, a))
  {
    var r := Begin(w, s, a);
    if Orderly(s.history) {
      assert Calm(w, s, a) && NoCheck(r, a) && NoTimer(r, a) && NoProcessOf(r, a) && Solo(r, a);
    }
    OthersCalm(w, s, r, a);
  }

  lemma {:induction false} StartCalm(w: World, s: State, a: nat)
    requires Valid(w, s) && a < |w.apps| && Peace(w, s) && Vacant(s, a)
    requires Orderly(s.history) ==> s.apps[a].callbacks != []
    ensures var r := Start(w, s, a);
      Peace(w, r) && (Orderly(r.history) ==> Orderly(s.history))
    decreases w.rank[a], 3, 0
  {
    var s1 := Begin(w, s, a);
    BeginCalm(w, s, a);
    if w.apps[a].preamble == [] { LaunchCalm(w, s1, a, 0); } else { PreamblesCalm(w, s1, a, 0); }
  }

  lemma {:induction false} PreamblesCalm(w: World, s: State, a: nat, i: nat)
    requires Valid(w, s) && a < |w.apps| && i <= |w.apps[a].preamble| && Peace(w, s)
    ensures var r := RequirePreambles(w, s, a, i);
      Peace(w, r) && (Orderly(r.history) ==> Orderly(s.history))
    decreases w.rank[a], 2, |w.apps[a].preamble| - i
  {
    if i < |w.apps[a].preamble| {
      RequireCalm(w, s, w.apps[a].preamble[i], Preamble(a, i));
      PreamblesCalm(w, Require(w, s, w.apps[a].preamble[i], Preamble(a, i)), a, i + 1);
    }
  }

  // ---------------------------------------------------------------- events

  lemma {:induction false} CloseTimerCalm(w: World, s: State, a: nat, t: nat)
    requires Valid(w, s) && a < |w.apps| && Peace(w, s) && Clearable(s, a)
    requires t in s.timers ==> s.timers[t] == a
    ensures Peace(w, CloseTimer(s, a, t)) && Clearable(CloseTimer(s, a, t), a)
  {
    var r := CloseTimer(s, a, t);
    if Orderly(s.history) {
      assert Calm(w, s, a) && NoCheck(r, a) && Solo(r, a) == Solo(s, a) && (NoTimer(s, a) ==> NoTimer(r, a));
    }
    OthersCalm(w, s, r, a);
  }

  // The `checking` flag matters only while a timer's check is under way.
  lemma {:induction false} SetCheckingCalm(w: World, s: State, a: nat, on: bool)
    requires Valid(w, s) && a < |w.apps| && Peace(w, s)
    requires Orderly(s.history) ==> on || NoCheck(s, a)
    ensures Peace(w, SetChecking(s, a, on))
  {
    var r := SetChecking(s, a, on);
    if Orderly(s.history) {
      assert Calm(w, s, a);
      assert NoCheck(r, a) == NoCheck(s, a) && NoTimer(r, a) == NoTimer(s, a)
        && NoProcessOf(r, a) == NoProcessOf(s, a) && Solo(r, a) == Solo(s, a);
    }
    OthersCalm(w, s, r, a);
  }

  lemma {:induction false} TimerCheckedCalm(w: World, s: State, a: nat, t: nat, error: int)
    requires Valid(w, s) && a < |w.apps| && Peace(w, s) && Clearable(s, a)
    requires t in s.timers ==> s.timers[t] == a
    ensures var r := TimerChecked(w, s, a, t, error);
      Peace(w, r) && Orderly(r.history) == Orderly(s.history)
  {
    if Completes(w, s, a, error) {
      var s0 := CloseTimer(s, a, t);
      CloseTimerCalm(w, s, a, t);
      ClearCalm(w, s0, a, error);
      var s1 := Clear(w, s0, a, error);
      if Orderly(s.history) { assert NoCheck(s1, a); }
      SetCheckingCalm(w, s1, a, false);
    } else {
      SetCheckingCalm(w, s, a, false);
    }
  }

  // An open timer of an app with waiters means that no start and no kill is under way.
  lemma {:induction false} TimedClearable(w: World, s: State, t: nat)
    requires Valid(w, s) && t in s.timers && Peace(w, s)
    requires !s.apps[s.timers[t]].checking || !w.apps[s.timers[t]].checker
    ensures Clearable(s, s.timers[t])
  {
    var a := s.timers[t];
    if Orderly(s.history) { assert Calm(w, s, a); }
  }

  lemma {:induction false} TickingCalm(w: World, s: State, t: nat)
    requires Valid(w, s) && t in s.timers && Peace(w, s)
    requires s.apps[s.timers[t]].callbacks != [] && !s.apps[s.timers[t]].checking
    ensures var a := s.timers[t]; var r := SetChecking(CheckForTimer(w, s, a, t), a, true);
      Peace(w, r) && (Orderly(r.history) ==> Orderly(s.history))
  {
    var a := s.timers[t];
    TimedClearable(w, s, t);
    if !w.apps[a].checker {
      TimerCheckedCalm(w, s, a, t, 0);
      SetCheckingCalm(w, TimerChecked(w, s, a, t, 0), a, true);
    } else if w.spawn(s.nextId) == 0 {
      var r := SetChecking(NewCheck(s, a, ForTimer(t)), a, true);
      if Orderly(s.history) {
        assert Calm(w, s, a) && NoTimer(r, a) == NoTimer(s, a) && Solo(r, a) == Solo(s, a);
        assert NoProcessOf(r, a) == NoProcessOf(s, a);
      }
      OthersCalm(w, s, r, a);
    } else {
      var s2, e := NewCheck(s, a, ForTimer(t)).Log(CheckerFailed(a)), w.spawn(s.nextId);
      assert !Orderly(s2.history);
      TimerCheckedCalm(w, s2, a, t, e);
      SetCheckingCalm(w, TimerChecked(w, s2, a, t, e), a, true);
    }
  }

  lemma {:induction false} TickCalm(w: World, s: State, t: nat)
    requires Valid(w, s) && t in s.timers && Peace(w, s)
    ensures var r := Tick(w, s, t);
      Peace(w, r) && (Orderly(r.history) ==> Orderly(s.history))
  {
    var a, s1 := s.timers[t], s.Log(Ticked(s.timers[t]));
    OthersCalm(w, s, s1, |s.apps|);
    if s.apps[a].callbacks == [] {
      var r := Tick(w, s, t);
      if Orderly(s.history) {
        assert Calm(w, s1, a) && NoCheck(r, a) == NoCheck(s1, a) && (NoTimer(s1, a) ==> NoTimer(r, a));
        assert NoProcessOf(r, a) == NoProcessOf(s1, a) && Solo(r, a) == Solo(s1, a);
      }
      OthersCalm(w, s1, r, a);
    } else if !s.apps[a].checking {
      TickingCalm(w, s1, t);
    }
  }

  lemma {:induction false} CheckSeenCalm(w: World, s: State, h: nat, status: int, signal: int)
    requires Valid(w, s) && h in s.checks && Peace(w, s)
    ensures var a, r := s.checks[h].app, CheckSeen(s, h, status, signal);
      Peace(w, r) && Clearable(r, a) && (s.checks[h].use.ForRequire? ==> Fresh(r, a))
  {
    var a, r := s.checks[h].app, CheckSeen(s, h, status, signal);
    if Orderly(s.history) {
      assert Calm(w, s, a) && NoCheck(r, a) && !NoCheck(s, a);
      assert NoTimer(r, a) == NoTimer(s, a) && Solo(r, a) == Solo(s, a);
    }
    OthersCalm(w, s, r, a);
  }

  lemma {:induction false} CheckReportedCalm(w: World, s: State, h: nat, status: int, signal: int)
    requires Valid(w, s) && h in s.checks && Peace(w, s) && Tracked(s)
    ensures var r := CheckReported(w, s, h, status, signal);
      Peace(w, r) && (Orderly(r.history) ==> Orderly(s.history))
  {
    var a, s1, error := s.checks[h].app, CheckSeen(s, h, status, signal), Int32(Outcome(status, signal));
    CheckSeenCalm(w, s, h, status, signal);
    match s.checks[h].use
    case ForRequire => CheckedCalm(w, s1, a, error);
    case ForTimer(t) => TimerCheckedCalm(w, s1, a, t, error);
  }

  lemma {:induction false} ExitSeenCalm(w: World, s: State, p: nat, status: int, signal: int)
    requires Valid(w, s) && p in s.processes && Peace(w, s)
    ensures var a, r := s.processes[p], ExitSeen(s, p, status, signal);
      && Peace(w, r)
      && (s.apps[a].restart ==>
        var r' := NoRestart(r, a); Peace(w, r') && Vacant(r', a) && (Orderly(r'.history) ==> r'.apps[a].callbacks != []))
      && (!s.apps[a].restart && !w.apps[a].checker ==> Clearable(r, a))
  {
    var a, r := s.processes[p], ExitSeen(s, p, status, signal);
    var r' := NoRestart(r, a);
    ExitCalm(w, s, p, status, signal);
    if Orderly(s.history) {
      assert Calm(w, s, a) && !NoProcessOf(s, a);
      assert NoCheck(s, a) == NoCheck(r', a) && NoTimer(s, a) == NoTimer(r', a);
      assert Solo(s, a) ==> NoProcessOf(r', a);
    }
    OthersCalm(w, r, r', a);
  }

  lemma {:induction false} ExitCalm(w: World, s: State, p: nat, status: int, signal: int)
    requires Valid(w, s) && p in s.processes && Peace(w, s)
    ensures var a, r := s.processes[p], ExitSeen(s, p, status, signal);
      Peace(w, r) && (!s.apps[a].restart && !w.apps[a].checker ==> Clearable(r, a))
  {
    var a, r := s.processes[p], ExitSeen(s, p, status, signal);
    if Orderly(s.history) {
      assert Calm(w, s, a) && !NoProcessOf(s, a);
      assert NoCheck(r, a) == NoCheck(s, a) && NoTimer(r, a) == NoTimer(s, a);
      assert Solo(s, a) ==> NoProcessOf(r, a);
    }
    OthersCalm(w, s, r, a);
  }

  lemma {:induction false} ExitedCalm(w: World, s: State, p: nat, status: int, signal: int)
    requires Valid(w, s) && p in s.processes && Peace(w, s)
    ensures var r := Exited(w, s, p, status, signal);
      Peace(w, r) && (Orderly(r.history) ==> Orderly(s.history))
  {
    var a, s1, outcome := s.processes[p], ExitSeen(s, p, status, signal), Outcome(status, signal);
    ExitSeenCalm(w, s, p, status, signal);
    if outcome == 0 {
    } else if s.apps[a].restart {
      StartCalm(w, NoRestart(s1, a), a);
    } else if !w.apps[a].checker {
      ClearCalm(w, s1, a, Int32(outcome));
    }
  }

  lemma {:induction false} UserRequiresCalm(w: World, s: State, a: nat, id: nat)
    requires Valid(w, s) && a < |w.apps| && Peace(w, s)
    ensures Peace(w, Require(w, s.Log(Required(a)), a, User(id)))
  {
    OthersCalm(w, s, s.Log(Required(a)), |s.apps|);
    RequireCalm(w, s.Log(Required(a)), a, User(id));
  }

  lemma {:induction false} StepCalm(w: World, s: State, e: Event)
    requires Valid(w, s) && Enabled(w, s, e) && Peace(w, s) && Tracked(s)
    ensures Peace(w, Step(w, s, e))
  {
    match e
    case UserRequires(a, id) => UserRequiresCalm(w, s, a, id);
    case CheckerExits(h, status, signal) => CheckReportedCalm(w, s, h, status, signal);
    case ProcessExits(p, status, signal) => ExitedCalm(w, s, p, status, signal);
    case TimerTicks(t) => TickCalm(w, s, t);
    case TimePasses(ms) => OthersCalm(w, s, s.(now := s.now + ms).Log(Passed(ms)), |s.apps|);
  }

  lemma {:induction false} InitialCalm(w: World)
    requires w.Acyclic()
    ensures Peace(w, Initial(w))
  {
    forall b | 0 <= b < |w.apps| ensures Calm(w, Initial(w), b) {
    }
  }
}
