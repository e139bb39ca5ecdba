/** What a cascade leaves behind: the entries it adds to the history, by the rank of their
    apps, and the handles it opens. */
module ProcessTrail {
  import opened Common
  import opened ProcessState
  import opened ProcessSteps
  import opened ProcessBooks

  // What a cascade records: nothing that comes from outside; starts and kills of apps ranked up
  // to `top`, registrations of their continuations, and ends of starts of apps ranked above `low`.
  predicate Inner(w: World, e: Entry, low: int, top: int) {
    match e
    case Registered(_, cb, _) => cb.Preamble? && cb.parent < |w.rank| && w.rank[cb.parent] <= top
    case Invoked(_, _, _, _) => true
    case CheckerFailed(_) => true
    case Started(a, _) => a < |w.rank| && w.rank[a] <= top
    case Killed(a, _) => a < |w.rank| && w.rank[a] <= top
    case Refused(a, _) => a < |w.rank| && w.rank[a] > low
    case Spawned(a, _) => a < |w.rank| && w.rank[a] > low
    case _ => false
  }

  predicate Trail(w: World, h: History, g: History, low: int, top: int) {
    h == g || (g.Then? && Inner(w, g.entry, low, top) && Trail(w, h, g.past, low, top))
  }

  // Handles opened before n are in m if and only if they are in k.
  predicate SameBefore<T(==)>(m: map<nat, T>, k: map<nat, T>, n: nat) {
    forall h: nat :: h < n ==> (h in m <==> h in k) && (h in m ==> m[h] == k[h])
  }

  // Handles are opened, none is closed, and no time passes.
  ghost predicate Opens(s: State, r: State) {
    && s.nextId <= r.nextId && r.now == s.now
    && SameBefore(s.checks, r.checks, s.nextId)
    && SameBefore(s.processes, r.processes, s.nextId)
    && SameBefore(s.timers, r.timers, s.nextId)
  }

  ghost predicate Leads(w: World, s: State, r: State, low: int, top: int) {
    Trail(w, s.history, r.history, low, top) && Opens(s, r)
  }

  lemma {:induction false} TrailTwice(w: World, h: History, g: History, k: History, low: int, top: int)
    requires Trail(w, h, g, low, top) && Trail(w, g, k, low, top)
    ensures Trail(w, h, k, low, top)
  {
    if g != k { TrailTwice(w, h, g, k.past, low, top); }
  }

  lemma {:induction false} LeadsTwice(w: World, s: State, m: State, r: State, low: int, top: int)
    requires Leads(w, s, m, low, top) && Leads(w, m, r, low, top)
    ensures Leads(w, s, r, low, top)
  {
    TrailTwice(w, s.history, m.history, r.history, low, top);
  }

  // ---------------------------------------------------------------- the upward half

  lemma {:induction false} ClearLeads(w: World, s: State, a: nat, error: int, low: int, top: int)
    requires Valid(w, s) && a < |w.apps| && low <= w.rank[a]
    ensures Leads(w, s, Clear(w, s, a, error), low, top)
    decreases |w.apps| - w.rank[a], 1, |s.apps[a].callbacks|
  {
    if s.apps[a].callbacks != [] {
      var cb, s1 := s.apps[a].callbacks[0], Pop(s, a);
      var s2 := Answer(w, s1, a, cb, error);
      AnswerLeads(w, s1, a, cb, error, low, top);
      ClearLeads(w, s2, a, error, low, top);
      LeadsTwice(w, s, s2, Clear(w, s2, a, error), low, top);
    }
  }

  lemma {:induction false} AnswerLeads(w: World, s: State, a: nat, cb: Callback, error: int, low: int, top: int)
    requires Valid(w, s) && a < |w.apps| && Linked(w, a, cb) && low <= w.rank[a]
    ensures Leads(w, s, Answer(w, s, a, cb, error), low, top)
    decreases |w.apps| - w.rank[a], 0, 0
  {
    var s1 := Told(s, a, cb, error);
    assert Trail(w, s.history, s1.history, low, top);
    if cb.Preamble? && s1.apps[cb.parent].pendingPreamble == 0 {
      LaunchLeads(w, s1, cb.parent, s1.apps[cb.parent].errorPreamble, low, top);
      LeadsTwice(w, s, s1, Answer(w, s, a, cb, error), low, top);
    }
  }

  lemma {:induction false} LaunchLeads(w: World, s: State, a: nat, error: int, low: int, top: int)
    requires Valid(w, s) && a < |w.apps| && low < w.rank[a]
    ensures Leads(w, s, Launch(w, s, a, error), low, top)
    decreases |w.apps| - w.rank[a], 2, 0
  {
    var s1 := Launching(s, a, error);
    assert Leads(w, s, s1, low, top);
    if error != 0 {
      ClearLeads(w, s1, a, error, low, top);
      LeadsTwice(w, s, s1, Clear(w, s1, a, error), low, top);
    } else if w.spawn(s.nextId) != 0 {
      ClearLeads(w, NoProcess(s1, a), a, w.spawn(s.nextId), low, top);
      LeadsTwice(w, s, s1, Launch(w, s, a, error), low, top);
    }
  }

  // ---------------------------------------------------------------- the downward half

  lemma {:induction false} RequireLeads(w: World, s: State, a: nat, cb: Callback, low: int, top: int)
    requires Valid(w, s) && a < |w.apps| && Linked(w, a, cb) && low < 0 && w.rank[a] <= top
    ensures Leads(w, Push(s, a, cb), Require(w, s, a, cb), low, top)
    decreases w.rank[a], 6, 0
  {
    if s.apps[a].callbacks == [] { CheckForRequireLeads(w, Push(s, a, cb), a, low, top); }
  }

  lemma {:induction false} CheckForRequireLeads(w: World, s: State, a: nat, low: int, top: int)
    requires Valid(w, s) && a < |w.apps| && low < 0 && w.rank[a] <= top
    ensures Leads(w, s, CheckForRequire(w, s, a), low, top)
    decreases w.rank[a], 5, 0
  {
    if !w.apps[a].checker {
      CheckedLeads(w, s, a, 0, low, top);
    } else if w.spawn(s.nextId) != 0 {
      var s1 := NewCheck(s, a, ForRequire).Log(CheckerFailed(a));
      assert Leads(w, s, s1, low, top);
      CheckedLeads(w, s1, a, w.spawn(s.nextId), low, top);
      LeadsTwice(w, s, s1, CheckForRequire(w, s, a), low, top);
    }
  }

  lemma {:induction false} CheckedLeads(w: World, s: State, a: nat, error: int, low: int, top: int)
    requires Valid(w, s) && a < |w.apps| && low < 0 && w.rank[a] <= top
    ensures Leads(w, s, Checked(w, s, a, error), low, top)
    decreases w.rank[a], 4, 0
  {
    var app := s.apps[a];
    if error == 0 && (w.apps[a].checker || app.process.Some?) {
      ClearLeads(w, s, a, 0, low, top);
    } else if error == 0 || app.process.None? {
      StartLeads(w, s.Put(a, app.(requireStartTime := s.now)), a, low, top);
    }
  }

  lemma {:induction false} StartLeads(w: World, s: State, a: nat, low: int, top: int)
    requires Valid(w, s) && a < |w.apps| && low < 0 && w.rank[a] <= top
    ensures Leads(w, s, Start(w, s, a), low, top)
    decreases w.rank[a], 3, 0
  {
    var s1 := Begin(w, s, a);
    assert Leads(w, s, s1, low, top);
    if w.apps[a].preamble == [] { LaunchLeads(w, s1, a, 0, low, top); } else { PreamblesLead(w, s1, a, 0, low, top); }
    LeadsTwice(w, s, s1, Start(w, s, a), low, top);
  }

  lemma {:induction false} PreamblesLead(w: World, s: State, a: nat, i: nat, low: int, top: int)
    requires Valid(w, s) && a < |w.apps| && i <= |w.apps[a].preamble| && low < 0 && w.rank[a] <= top
    ensures Leads(w, s, RequirePreambles(w, s, a, i), low, top)
    decreases w.rank[a], 2, |w.apps[a].preamble| - i
  {
    if i < |w.apps[a].preamble| {
      var p, cb := w.apps[a].preamble[i], Preamble(a, i);
      var s1, s2 := Push(s, p, cb), Require(w, s, p, cb);
      RequireLeads(w, s, p, cb, low, top);
      assert Leads(w, s, s1, low, top);
      LeadsTwice(w, s, s1, s2, low, top);
      PreamblesLead(w, s2, a, i + 1, low, top);
      LeadsTwice(w, s, s2, RequirePreambles(w, s2, a, i + 1), low, top);
    }
  }

  // ---------------------------------------------------------------- events

  // The history when an event has been recorded, and the callback it registers if it does.
  ghost function Heard(w: World, s: State, e: Event): History
    requires Valid(w, s) && Enabled(w, s, e)
  {
    match e
    case UserRequires(a, id) => Push(s.Log(Required(a)), a, User(id)).history
    case CheckerExits(h, status, signal) => Then(s.history, CheckExited(s.checks[h].app, status, signal))
    case ProcessExits(p, status, signal) =>
      var a := s.processes[p];
      Then(s.history, ProcessExited(a, p, status, signal, s.apps[a].restart))
    case TimerTicks(t) => Then(s.history, Ticked(s.timers[t]))
    case TimePasses(ms) => Then(s.history, Passed(ms))
  }

  lemma {:induction false} TimerCheckedLeads(w: World, s: State, a: nat, t: nat, error: int)
    requires Valid(w, s) && a < |w.apps|
    ensures var r := TimerChecked(w, s, a, t, error); Trail(w, s.history, r.history, -1, |w.apps|) && r.now == s.now
  {
    if Completes(w, s, a, error) { ClearLeads(w, CloseTimer(s, a, t), a, error, -1, |w.apps|); }
  }

  lemma {:induction false} TickLeads(w: World, s: State, t: nat)
    requires Valid(w, s) && t in s.timers
    ensures var r := Tick(w, s, t);
      Trail(w, Then(s.history, Ticked(s.timers[t])), r.history, -1, |w.apps|) && r.now == s.now
  {
    var a, s1 := s.timers[t], s.Log(Ticked(s.timers[t]));
    if s.apps[a].callbacks != [] && !s.apps[a].checking {
      if !w.apps[a].checker {
        TimerCheckedLeads(w, s1, a, t, 0);
      } else if w.spawn(s.nextId) != 0 {
        var s2 := NewCheck(s1, a, ForTimer(t)).Log(CheckerFailed(a));
        assert Trail(w, s1.history, s2.history, -1, |w.apps|);
        TimerCheckedLeads(w, s2, a, t, w.spawn(s.nextId));
        TrailTwice(w, s1.history, s2.history, Tick(w, s, t).history, -1, |w.apps|);
      }
    }
  }

  // What follows from an event is a cascade, and takes no time.
  lemma {:induction false} StepTrail(w: World, s: State, e: Event)
    requires Valid(w, s) && Enabled(w, s, e)
    ensures Trail(w, Heard(w, s, e), Step(w, s, e).history, -1, |w.apps|)
    ensures Step(w, s, e).now == s.now + if e.TimePasses? then e.ms else 0
  {
    match e
    case UserRequires(a, id) => RequireLeads(w, s.Log(Required(a)), a, User(id), -1, |w.apps|);
    case CheckerExits(h, status, signal) =>
      var s1, error := CheckSeen(s, h, status, signal), Int32(Outcome(status, signal));
      if s.checks[h].use.ForRequire? {
        CheckedLeads(w, s1, s.checks[h].app, error, -1, |w.apps|);
      } else {
        TimerCheckedLeads(w, s1, s.checks[h].app, s.checks[h].use.timer, error);
      }
    case ProcessExits(p, status, signal) =>
      var a, s1, outcome := s.processes[p], ExitSeen(s, p, status, signal), Outcome(status, signal);
      if outcome != 0 {
        if s.apps[a].restart { StartLeads(w, NoRestart(s1, a), a, -1, |w.apps|); }
        else if !w.apps[a].checker { ClearLeads(w, s1, a, Int32(outcome), -1, |w.apps|); }
      }
    case TimerTicks(t) => TickLeads(w, s, t);
    case TimePasses(_) =>
  }
}
