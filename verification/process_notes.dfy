/** What the manager keeps of each app, read off the history: whether its process was killed for
    a restart, which process it runs, and when it was last required in vain. */
module ProcessNotes {
  import opened Common
  import opened ProcessState
  import opened ProcessSteps
  import opened ProcessBooks
  import opened ProcessTrail
  import opened ProcessRuns

  // The time that has passed.
  function Clock(h: History): nat {
    match h
    case Empty => 0
    case Then(past, e) => Clock(past) + if e.Passed? then e.ms else 0
  }

  // A process of `a` was killed, and none has failed or ended by a signal since.
  predicate KilledSince(h: History, a: nat) {
    match h
    case Empty => false
    case Then(past, e) =>
      if e.Killed? && e.app == a then true
      else if e.ProcessExited? && e.app == a && (e.status != 0 || e.signal != 0) then false
      else KilledSince(past, a)
  }

  // The process of `a` that was created last, if it could be run and none has exited since.
  function LastChild(w: World, h: History, a: nat): Option<nat> {
    match h
    case Empty => None
    case Then(past, e) =>
      if e.Spawned? && e.app == a then (if w.spawn(e.child) == 0 then Some(e.child) else None)
      else if e.ProcessExited? && e.app == a then None
      else LastChild(w, past, a)
  }

  predicate AfterExit(h: History, a: nat) {
    h.Then? && h.entry.ProcessExited? && h.entry.app == a
  }

  // When a check of Require last started `a`. A start that follows an exit is a restart.
  function CalledAt(h: History, a: nat): nat {
    match h
    case Empty => 0
    case Then(past, e) => if e.Started? && e.app == a && !AfterExit(past, a) then Clock(past) else CalledAt(past, a)
  }

  // How many preambles of `a` were required since it was last started.
  function Sought(h: History, a: nat): nat {
    match h
    case Empty => 0
    case Then(past, e) =>
      if e.Started? && e.app == a then 0
      else if e.Registered? && e.callback.Preamble? && e.callback.parent == a then Sought(past, a) + 1
      else Sought(past, a)
  }

  // The last thing recorded is that a process killed for a restart failed or ended by a signal.
  predicate Restarting(h: History) {
    h.Then? && h.entry.ProcessExited? && h.entry.killed && (h.entry.status != 0 || h.entry.signal != 0)
  }

  // What an entry says is so, given all that came before it.
  predicate True(w: World, past: History, e: Entry) {
    && (Restarting(past) ==> e.Started? && e.app == past.entry.app)
    && match e
       case Invoked(a, _, p, _) => p == LastChild(w, past, a)
       case Killed(a, p) => LastChild(w, past, a) == Some(p)
       case ProcessExited(a, _, _, _, killed) => killed == KilledSince(past, a)
       case Registered(a, cb, _) => Linked(w, a, cb) && (cb.Preamble? ==> cb.slot == Sought(past, cb.parent))
       case Started(a, _) => LastChild(w, past, a).None?
       case _ => true
  }

  predicate TrueHistory(w: World, h: History) {
    h.Then? ==> True(w, h.past, h.entry) && TrueHistory(w, h.past)
  }

  ghost predicate Fields(w: World, s: State, a: nat)
    requires a < |s.apps|
  {
    && s.apps[a].restart == KilledSince(s.history, a)
    && s.apps[a].process == LastChild(w, s.history, a)
  }

  ghost predicate Dated(s: State, a: nat)
    requires a < |s.apps|
  {
    s.apps[a].requireStartTime == CalledAt(s.history, a)
  }

  ghost predicate Kept(w: World, s: State)
    requires |s.apps| == |w.apps|
  {
    && s.now == Clock(s.history) && TrueHistory(w, s.history)
    && (forall h :: h in s.checks ==> s.checks[h].app < |w.apps| && w.apps[s.checks[h].app].checker)
    && (forall b :: 0 <= b < |s.apps| ==> Fields(w, s, b))
  }

  ghost predicate Noted(w: World, s: State)
    requires |s.apps| == |w.apps|
  {
    && Kept(w, s) && !Restarting(s.history)
    && (forall b :: 0 <= b < |s.apps| ==> Dated(s, b))
  }

  // `a` is about to be started, by a check or after the exit of its killed process.
  ghost predicate Startable(w: World, s: State, a: nat)
    requires a < |s.apps| == |w.apps|
  {
    && Kept(w, s) && s.apps[a].process.None?
    && (Restarting(s.history) ==> s.history.entry.app == a)
    && (forall b :: 0 <= b < |s.apps| && b != a ==> Dated(s, b))
    && (if AfterExit(s.history, a) then Dated(s, a) else s.apps[a].requireStartTime == s.now)
  }

  // Entries that say nothing of kills, processes, starts and time.
  predicate Plain(e: Entry) {
    !e.Killed? && !e.ProcessExited? && !e.Spawned? && !e.Started? && !e.Passed?
  }

  lemma {:induction false} PlainNoted(w: World, s: State, r: State)
    requires |s.apps| == |r.apps| == |w.apps| && Noted(w, s) && r.now == s.now
    requires r.history == s.history || (r.history.Then? && r.history.past == s.history
      && Plain(r.history.entry) && True(w, s.history, r.history.entry))
    requires forall h :: h in r.checks ==> h in s.checks && r.checks[h] == s.checks[h]
    requires forall b :: 0 <= b < |s.apps| ==>
      r.apps[b].restart == s.apps[b].restart && r.apps[b].process == s.apps[b].process
      && r.apps[b].requireStartTime == s.apps[b].requireStartTime
    ensures Noted(w, r)
  {
    forall b | 0 <= b < |r.apps| ensures Fields(w, r, b) && Dated(r, b) {
      assert Fields(w, s, b) && Dated(s, b);
    }
  }

  // ---------------------------------------------------------------- the upward half

  lemma {:induction false} ClearNoted(w: World, s: State, a: nat, error: int)
    requires Valid(w, s) && a < |w.apps| && Noted(w, s)
    ensures Noted(w, Clear(w, s, a, error))
    decreases |w.apps| - w.rank[a], 1, |s.apps[a].callbacks|
  {
    if s.apps[a].callbacks != [] {
      var cb, s1 := s.apps[a].callbacks[0], Pop(s, a);
      PlainNoted(w, s, s1);
      AnswerNoted(w, s1, a, cb, error);
      ClearNoted(w, Answer(w, s1, a, cb, error), a, error);
    }
  }

  lemma {:induction false} AnswerNoted(w: World, s: State, a: nat, cb: Callback, error: int)
    requires Valid(w, s) && a < |w.apps| && Linked(w, a, cb) && Noted(w, s)
    ensures Noted(w, Answer(w, s, a, cb, error))
    decreases |w.apps| - w.rank[a], 0, 0
  {
    var s1 := Told(s, a, cb, error);
    assert Fields(w, s, a);
    PlainNoted(w, s, s1);
    if cb.Preamble? && s1.apps[cb.parent].pendingPreamble == 0 {
      LaunchNoted(w, s1, cb.parent, s1.apps[cb.parent].errorPreamble);
    }
  }

  lemma {:induction false} LaunchNoted(w: World, s: State, a: nat, error: int)
    requires Valid(w, s) && a < |w.apps| && Noted(w, s)
    ensures Noted(w, Launch(w, s, a, error))
    decreases |w.apps| - w.rank[a], 2, 0
  {
    var s1 := Launching(s, a, error);
    if error != 0 {
      PlainNoted(w, s, s1);
      ClearNoted(w, s1, a, error);
    } else {
      SpawnNoted(w, s, a);
      if w.spawn(s.nextId) != 0 { ClearNoted(w, NoProcess(s1, a), a, w.spawn(s.nextId)); }
    }
  }

  lemma {:induction false} SpawnNoted(w: World, s: State, a: nat)
    requires Valid(w, s) && a < |w.apps| && Noted(w, s)
    ensures var r := Launching(s, a, 0); Noted(w, if w.spawn(s.nextId) == 0 then r else NoProcess(r, a))
  {
    var r := if w.spawn(s.nextId) == 0 then Launching(s, a, 0) else NoProcess(Launching(s, a, 0), a);
    forall b | 0 <= b < |r.apps| ensures Fields(w, r, b) && Dated(r, b) {
      assert Fields(w, s, b) && Dated(s, b);
    }
  }

  // ---------------------------------------------------------------- the downward half

  lemma {:induction false} RequireNoted(w: World, s: State, a: nat, cb: Callback)
    requires Valid(w, s) && a < |w.apps| && Linked(w, a, cb) && Noted(w, s)
    requires cb.Preamble? ==> cb.slot == Sought(s.history, cb.parent)
    ensures Noted(w, Require(w, s, a, cb))
    decreases w.rank[a], 6, 0
  {
    var s1 := Push(s, a, cb);
    PlainNoted(w, s, s1);
    if s.apps[a].callbacks == [] { CheckForRequireNoted(w, s1, a); }
  }

  lemma {:induction false} CheckForRequireNoted(w: World, s: State, a: nat)
    requires Valid(w, s) && a < |w.apps| && Noted(w, s) && !AfterExit(s.history, a)
    ensures Noted(w, CheckForRequire(w, s, a))
    decreases w.rank[a], 5, 0
  {
    if !w.apps[a].checker {
      CheckedNoted(w, s, a, 0);
    } else {
      var s1 := NewCheck(s, a, ForRequire);
      NewCheckNoted(w, s, a, ForRequire);
      if w.spawn(s.nextId) != 0 { CheckedNoted(w, s1.Log(CheckerFailed(a)), a, w.spawn(s.nextId)); }
    }
  }

  lemma {:induction false} NewCheckNoted(w: World, s: State, a: nat, use: Use)
    requires Valid(w, s) && a < |w.apps| && Noted(w, s) && w.apps[a].checker
    ensures var r := NewCheck(s, a, use); Noted(w, r) && Noted(w, r.Log(CheckerFailed(a)))
  {
    var r := NewCheck(s, a, use);
    forall b | 0 <= b < |r.apps| ensures Fields(w, r, b) && Dated(r, b) {
      assert Fields(w, s, b) && Dated(s, b);
    }
    PlainNoted(w, r, r.Log(CheckerFailed(a)));
  }

  lemma {:induction false} CheckedNoted(w: World, s: State, a: nat, error: int)
    requires Valid(w, s) && a < |w.apps| && Noted(w, s) && !AfterExit(s.history, a)
    ensures Noted(w, Checked(w, s, a, error))
    decreases w.rank[a], 4, 0
  {
    var app := s.apps[a];
    assert Fields(w, s, a);
    if error == 0 && (w.apps[a].checker || app.process.Some?) {
      ClearNoted(w, s, a, 0);
    } else if error == 0 || app.process.None? {
      var s1 := s.Put(a, app.(requireStartTime := s.now));
      forall b | 0 <= b < |s.apps| ensures Fields(w, s1, b) && (b != a ==> Dated(s1, b)) {
        assert Fields(w, s, b) && Dated(s, b);
      }
      StartNoted(w, s1, a);
    } else {
      var r := s.Put(a, app.(restart := true)).Log(Killed(a, app.process.value));
      forall b | 0 <= b < |s.apps| ensures Fields(w, r, b) && Dated(r, b) {
        assert Fields(w, s, b) && Dated(s, b);
      }
    }
  }

  lemma {:induction false} StartNoted(w: World, s: State, a: nat)
    requires Valid(w, s) && a < |w.apps| && Startable(w, s, a)
    ensures Noted(w, Start(w, s, a))
    decreases w.rank[a], 3, 0
  {
    var s1 := Begin(w, s, a);
    assert Noted(w, s1) by {
      assert Fields(w, s, a);
      forall b | 0 <= b < |s.apps| ensures Fields(w, s1, b) && Dated(s1, b) {
        assert Fields(w, s, b) && (b != a ==> Dated(s, b));
      }
    }
    if w.apps[a].preamble == [] { LaunchNoted(w, s1, a, 0); } else { PreamblesNoted(w, s1, a, 0); }
  }

  lemma {:induction false} PreamblesNoted(w: World, s: State, a: nat, i: nat)
    requires Valid(w, s) && a < |w.apps| && i <= |w.apps[a].preamble| && Noted(w, s) && Sought(s.history, a) == i
    ensures Noted(w, RequirePreambles(w, s, a, i))
    decreases w.rank[a], 2, |w.apps[a].preamble| - i
  {
    if i < |w.apps[a].preamble| {
      var p, cb := w.apps[a].preamble[i], Preamble(a, i);
      var s1 := Require(w, s, p, cb);
      RequireNoted(w, s, p, cb);
      RequireLeads(w, s, p, cb, -1, w.rank[p]);
      TrailSought(w, Push(s, p, cb).history, s1.history, -1, w.rank[p], a);
      PreamblesNoted(w, s1, a, i + 1);
    }
  }

  // Requiring an app ranked lower requires no preamble on behalf of `a`.
  lemma {:induction false} TrailSought(w: World, h: History, g: History, low: int, top: int, a: nat)
    requires Trail(w, h, g, low, top) && a < |w.rank| && w.rank[a] > top
    ensures Sought(g, a) == Sought(h, a)
  {
    if h != g { TrailSought(w, h, g.past, low, top, a); }
  }

  // ---------------------------------------------------------------- events

  lemma {:induction false} TimerCheckedNoted(w: World, s: State, a: nat, t: nat, error: int)
    requires Valid(w, s) && a < |w.apps| && Noted(w, s)
    ensures Noted(w, TimerChecked(w, s, a, t, error))
  {
    var s1 := s;
    if Completes(w, s, a, error) {
      s1 := Clear(w, CloseTimer(s, a, t), a, error);
      PlainNoted(w, s, CloseTimer(s, a, t));
      ClearNoted(w, CloseTimer(s, a, t), a, error);
    }
    PlainNoted(w, s1, SetChecking(s1, a, false));
  }

  lemma {:induction false} CheckForTimerNoted(w: World, s: State, a: nat, t: nat)
    requires Valid(w, s) && a < |w.apps| && Noted(w, s)
    ensures Noted(w, CheckForTimer(w, s, a, t))
  {
    if !w.apps[a].checker {
      TimerCheckedNoted(w, s, a, t, 0);
    } else {
      var s1 := NewCheck(s, a, ForTimer(t)).Log(CheckerFailed(a));
      NewCheckNoted(w, s, a, ForTimer(t));
      if w.spawn(s.nextId) != 0 { TimerCheckedNoted(w, s1, a, t, w.spawn(s.nextId)); }
    }
  }

  lemma {:induction false} TickNoted(w: World, s: State, t: nat)
    requires Valid(w, s) && t in s.timers && Noted(w, s)
    ensures Noted(w, Tick(w, s, t))
  {
    var a, s1 := s.timers[t], s.Log(Ticked(s.timers[t]));
    PlainNoted(w, s, s1);
    if s.apps[a].callbacks == [] {
      PlainNoted(w, s1, Tick(w, s, t));
    } else if !s.apps[a].checking {
      CheckForTimerNoted(w, s1, a, t);
      PlainNoted(w, CheckForTimer(w, s1, a, t), Tick(w, s, t));
    }
  }

  lemma {:induction false} CheckReportedNoted(w: World, s: State, h: nat, status: int, signal: int)
    requires Valid(w, s) && h in s.checks && Noted(w, s)
    ensures Noted(w, CheckReported(w, s, h, status, signal))
  {
    var s1, error := CheckSeen(s, h, status, signal), Int32(Outcome(status, signal));
    PlainNoted(w, s, s1);
    match s.checks[h].use
    case ForRequire => CheckedNoted(w, s1, s.checks[h].app, error);
    case ForTimer(t) => TimerCheckedNoted(w, s1, s.checks[h].app, t, error);
  }

  lemma {:induction false} ExitedNoted(w: World, s: State, p: nat, status: int, signal: int)
    requires Valid(w, s) && p in s.processes && Noted(w, s)
    ensures Noted(w, Exited(w, s, p, status, signal))
  {
    var a, s1 := s.processes[p], ExitSeen(s, p, status, signal);
    assert Fields(w, s, a);
    if Outcome(status, signal) != 0 && s.apps[a].restart {
      var s2 := NoRestart(s1, a);
      assert Startable(w, s2, a) by {
        forall b | 0 <= b < |s.apps| ensures Fields(w, s2, b) && Dated(s2, b) {
          assert Fields(w, s, b) && Dated(s, b);
        }
      }
      StartNoted(w, s2, a);
    } else {
      assert Noted(w, s1) by {
        forall b | 0 <= b < |s.apps| ensures Fields(w, s1, b) && Dated(s1, b) {
          assert Fields(w, s, b) && Dated(s, b);
        }
      }
      if Outcome(status, signal) != 0 && !w.apps[a].checker { ClearNoted(w, s1, a, Int32(Outcome(status, signal))); }
    }
  }

  lemma {:induction false} StepNoted(w: World, s: State, e: Event)
    requires Valid(w, s) && Enabled(w, s, e) && Noted(w, s)
    ensures Noted(w, Step(w, s, e))
  {
    match e
    case UserRequires(a, id) =>
      PlainNoted(w, s, s.Log(Required(a)));
      RequireNoted(w, s.Log(Required(a)), a, User(id));
    case CheckerExits(h, status, signal) => CheckReportedNoted(w, s, h, status, signal);
    case ProcessExits(p, status, signal) => ExitedNoted(w, s, p, status, signal);
    case TimerTicks(t) => TickNoted(w, s, t);
    case TimePasses(ms) =>
      var r := Step(w, s, e);
      forall b | 0 <= b < |s.apps| ensures Fields(w, r, b) && Dated(r, b) {
        assert Fields(w, s, b) && Dated(s, b);
      }
  }

  lemma {:induction false} RunNoted(w: World, es: seq<Event>)
    requires w.Acyclic() && Run(w, es).Some?
    ensures Noted(w, Run(w, es).value)
    decreases |es|
  {
    if es != [] {
      var n := |es| - 1;
      RunNoted(w, es[..n]);
      StepNoted(w, Run(w, es[..n]).value, es[n]);
    }
  }
  // ---------------------------------------------------------------- what the history says is so

  lemma {:induction false} OccursTrue(w: World, h: History, past: History, e: Entry)
    requires TrueHistory(w, h) && Occurs(h, past, e)
    ensures True(w, past, e)
  {
    if !(h.past == past && h.entry == e) { OccursTrue(w, h.past, past, e); }
  }

  // Whoever is called is given the process of the app that was created last, if it could be run
  // and none has exited since.
  lemma {:induction false} ToldOfProcess(w: World, es: seq<Event>, past: History, a: nat, cb: Callback, p: Option<nat>, error: int)
    requires w.Acyclic() && Run(w, es).Some?
    requires Occurs(Run(w, es).value.history, past, Invoked(a, cb, p, error))
    ensures p == LastChild(w, past, a)
  {
    RunNoted(w, es);
    OccursTrue(w, Run(w, es).value.history, past, Invoked(a, cb, p, error));
  }

  // That process is the one that is killed; and no app is started that has one.
  lemma {:induction false} KillsItsOwn(w: World, es: seq<Event>, past: History, a: nat, p: nat, n: int)
    requires w.Acyclic() && Run(w, es).Some?
    ensures Occurs(Run(w, es).value.history, past, Killed(a, p)) ==> LastChild(w, past, a) == Some(p)
    ensures Occurs(Run(w, es).value.history, past, Started(a, n)) ==> LastChild(w, past, a).None?
  {
    RunNoted(w, es);
    var h := Run(w, es).value.history;
    if Occurs(h, past, Killed(a, p)) { OccursTrue(w, h, past, Killed(a, p)); }
    if Occurs(h, past, Started(a, n)) { OccursTrue(w, h, past, Started(a, n)); }
  }

  // The preambles of an app are required in the order in which they are configured.
  lemma {:induction false} SoughtInOrder(w: World, es: seq<Event>, past: History, p: nat, a: nat, i: nat, quiet: bool)
    requires w.Acyclic() && Run(w, es).Some?
    requires Occurs(Run(w, es).value.history, past, Registered(p, Preamble(a, i), quiet))
    ensures i == Sought(past, a)
    ensures a < |w.apps| && i < |w.apps[a].preamble| && p == w.apps[a].preamble[i]
  {
    RunNoted(w, es);
    OccursTrue(w, Run(w, es).value.history, past, Registered(p, Preamble(a, i), quiet));
  }

  // When a process that was killed for a restart fails or ends by a signal, the next thing is
  // that its app is started.
  lemma {:induction false} KilledIsRestarted(w: World, es: seq<Event>, past: History, a: nat, p: nat, status: int, signal: int, killed: bool)
      returns (n: int)
    requires w.Acyclic() && Run(w, es).Some?
    requires Occurs(Run(w, es).value.history, past, ProcessExited(a, p, status, signal, killed))
    requires KilledSince(past, a) && (status != 0 || signal != 0)
    ensures Occurs(Run(w, es).value.history, Then(past, ProcessExited(a, p, status, signal, killed)), Started(a, n))
  {
    RunNoted(w, es);
    var h, e := Run(w, es).value.history, ProcessExited(a, p, status, signal, killed);
    OccursTrue(w, h, past, e);
    n := NextIsStart(w, h, past, e);
  }

  lemma {:induction false} NextIsStart(w: World, h: History, past: History, e: Entry) returns (n: int)
    requires TrueHistory(w, h) && Occurs(h, past, e) && h != Then(past, e) && Restarting(Then(past, e))
    ensures Occurs(h, Then(past, e), Started(e.app, n))
  {
    if h.past == Then(past, e) {
      n := h.entry.pending;
    } else {
      n := NextIsStart(w, h.past, past, e);
    }
  }

  // ---------------------------------------------------------------- time

  function Elapsed(es: seq<Event>): nat {
    if es == [] then 0
    else
      var e := es[|es| - 1];
      Elapsed(es[..|es| - 1]) + if e.TimePasses? then e.ms else 0
  }

  lemma {:induction false} ClockIsElapsed(w: World, es: seq<Event>)
    requires w.Acyclic() && Run(w, es).Some?
    ensures Clock(Run(w, es).value.history) == Elapsed(es)
    decreases |es|
  {
    RunNoted(w, es);
    if es != [] {
      var n := |es| - 1;
      RunNoted(w, es[..n]);
      ClockIsElapsed(w, es[..n]);
      StepTrail(w, Run(w, es[..n]).value, es[n]);
    }
  }
}
