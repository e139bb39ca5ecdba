/** What waiters are told when a start fails: if preambles failed, all that wait get the number
    that did, and if the process cannot be run, its error. */
module ProcessRefusals {
  import opened Common
  import opened ProcessState
  import opened ProcessSteps
  import opened ProcessBooks
  import opened ProcessTrail
  import opened ProcessNotes
  import opened ProcessRuns

  // The error that those that wait for `a` are owed: by a start that fails, or, without a checker
  // to say whether `a` is up, by a process that does.
  function Owed(w: World, e: Entry, a: nat): Option<int> {
    if e.Refused? && e.app == a then Some(e.error)
    else if e.Spawned? && e.app == a && w.spawn(e.child) != 0 then Some(w.spawn(e.child))
    else if e.ProcessExited? && e.app == a < |w.apps| && !w.apps[a].checker && !e.killed && (e.status != 0 || e.signal != 0)
    then Some(Int32(if e.status != 0 then e.status else e.signal))
    else None
  }

  // Those registered and not yet called.
  function Pending(h: History, a: nat): seq<Callback> {
    if |InvokedOn(h, a)| <= |RegisteredOn(h, a)| then RegisteredOn(h, a)[|InvokedOn(h, a)|..] else []
  }

  // For every failed start in h, those that waited then are the next to be told, and are told
  // what it owes them.
  ghost predicate Kept(w: World, h: History, a: nat, told: seq<(Callback, int)>) {
    h.Then? ==>
      && Kept(w, h.past, a, told)
      && (Owed(w, h.entry, a).Some? ==>
        Answers(h.past, a) + Each(Pending(h.past, a), Owed(w, h.entry, a).value) <= told)
  }

  ghost predicate Honest(w: World, s: State, a: nat) {
    Kept(w, s.history, a, Answers(s.history, a))
  }

  lemma {:induction false} KeptMore(w: World, h: History, a: nat, told: seq<(Callback, int)>, more: seq<(Callback, int)>)
    requires Kept(w, h, a, told) && told <= more
    ensures Kept(w, h, a, more)
  {
    if h.Then? { KeptMore(w, h.past, a, told, more); }
  }

  // An entry that is no failed start of `a` owes nobody that waits for it anything.
  lemma {:induction false} EntryHonest(w: World, s: State, r: State, a: nat)
    requires r.history.Then? && r.history.past == s.history && Owed(w, r.history.entry, a).None?
    ensures Honest(w, s, a) ==> Honest(w, r, a)
  {
    if Honest(w, s, a) { KeptMore(w, s.history, a, Answers(s.history, a), Answers(r.history, a)); }
  }

  // Clearing the queue of an app ends no start of apps ranked up to it.
  lemma {:induction false} TrailKept(w: World, h: History, g: History, low: int, top: int, a: nat, told: seq<(Callback, int)>)
    requires Trail(w, h, g, low, top) && a < |w.rank| && w.rank[a] <= low && Kept(w, h, a, told)
    ensures Kept(w, g, a, told)
  {
    if h != g { TrailKept(w, h, g.past, low, top, a, told); }
  }

  // ---------------------------------------------------------------- the upward half

  lemma {:induction false} ClearHonest(w: World, s: State, c: nat, error: int, a: nat)
    requires Valid(w, s) && c < |w.apps| && a < |w.apps| && Balanced(s, a)
    ensures var r := Clear(w, s, c, error); Balanced(r, a) && (Honest(w, s, a) ==> Honest(w, r, a))
    decreases |w.apps| - w.rank[c], 1, |s.apps[c].callbacks|
  {
    if s.apps[c].callbacks != [] {
      var cb, s1 := s.apps[c].callbacks[0], Pop(s, c);
      assert s.apps[c].callbacks == [cb] + s1.apps[c].callbacks;
      AnswerHonest(w, s1, c, cb, error, a);
      ClearHonest(w, Answer(w, s1, c, cb, error), c, error, a);
    }
  }

  // In order, but for one waiter of c that has left its queue and is about to be told.
  ghost predicate Owing(s: State, c: nat, cb: Callback, a: nat)
    requires a < |s.apps|
  {
    RegisteredOn(s.history, a) == InvokedOn(s.history, a) + (if a == c then [cb] else []) + s.apps[a].callbacks
  }

  lemma {:induction false} AnswerHonest(w: World, s: State, c: nat, cb: Callback, error: int, a: nat)
    requires Valid(w, s) && c < |w.apps| && Linked(w, c, cb) && a < |w.apps| && Owing(s, c, cb, a)
    ensures var r := Answer(w, s, c, cb, error); Balanced(r, a) && (Honest(w, s, a) ==> Honest(w, r, a))
    decreases |w.apps| - w.rank[c], 0, 0
  {
    var s1 := Told(s, c, cb, error);
    EntryHonest(w, s, s1, a);
    if cb.Preamble? && s1.apps[cb.parent].pendingPreamble == 0 {
      LaunchHonest(w, s1, cb.parent, s1.apps[cb.parent].errorPreamble, a);
    }
  }

  lemma {:induction false} LaunchHonest(w: World, s: State, c: nat, error: int, a: nat)
    requires Valid(w, s) && c < |w.apps| && a < |w.apps| && Balanced(s, a)
    ensures var r := Launch(w, s, c, error); Balanced(r, a) && (Honest(w, s, a) ==> Honest(w, r, a))
    decreases |w.apps| - w.rank[c], 2, 0
  {
    var s1 := Launching(s, c, error);
    if error != 0 {
      FailureHonest(w, s, s1, c, error, a);
    } else if w.spawn(s.nextId) != 0 {
      FailureHonest(w, s, NoProcess(s1, c), c, w.spawn(s.nextId), a);
    } else {
      EntryHonest(w, s, s1, a);
    }
  }

  lemma {:induction false} FailureHonest(w: World, s: State, m: State, c: nat, error: int, a: nat)
    requires Valid(w, m) && c < |w.apps| && a < |w.apps| == |s.apps| && Balanced(s, a)
    requires m.apps[a].callbacks == s.apps[a].callbacks && m.history.Then? && m.history.past == s.history
    requires var e := m.history.entry; (e.Refused? || e.Spawned?) && e.app == c && Owed(w, e, c) == Some(error)
    ensures var r := Clear(w, m, c, error); Balanced(r, a) && (Honest(w, s, a) ==> Honest(w, r, a))
    decreases |w.apps| - w.rank[c], 1, |m.apps[c].callbacks| + 1
  {
    assert Balanced(m, a);
    ClearHonest(w, m, c, error, a);
    if a == c { FailureIsTold(w, s, m, a, error); } else { EntryHonest(w, s, m, a); }
  }

  // What a failed start owes is paid by clearing the queue.
  lemma {:induction false} FailureIsTold(w: World, s: State, m: State, a: nat, error: int)
    requires Valid(w, m) && a < |w.apps| == |s.apps| && Balanced(s, a) && m.apps[a].callbacks == s.apps[a].callbacks
    requires m.history.Then? && m.history.past == s.history && Owed(w, m.history.entry, a) == Some(error)
    requires Answers(m.history, a) == Answers(s.history, a)
    ensures var r := Clear(w, m, a, error);
      && Answers(r.history, a) == Answers(s.history, a) + Each(s.apps[a].callbacks, error)
      && (Honest(w, s, a) ==> Honest(w, r, a))
  {
    var r := Clear(w, m, a, error);
    ClearTellsAll(w, m, a, error);
    ClearLeads(w, m, a, error, w.rank[a], -1);
    assert Pending(s.history, a) == s.apps[a].callbacks;
    if Honest(w, s, a) {
      KeptMore(w, s.history, a, Answers(s.history, a), Answers(r.history, a));
      TrailKept(w, m.history, r.history, w.rank[a], -1, a, Answers(r.history, a));
    }
  }

  // A start whose preambles failed tells every waiter how many did, and nobody anything else.
  lemma {:induction false} RefusalTellsCount(w: World, s: State, a: nat)
    requires Valid(w, s) && a < |w.apps| && Ready(w, s, a) && s.apps[a].errorPreamble != 0
    ensures Answers(Launch(w, s, a, s.apps[a].errorPreamble).history, a)
         == Answers(s.history, a) + Each(s.apps[a].callbacks, Failures(s.history, a))
  {
    ClearTellsAll(w, Launching(s, a, s.apps[a].errorPreamble), a, s.apps[a].errorPreamble);
  }

  // ---------------------------------------------------------------- the downward half

  ghost predicate Fair(w: World, s: State, a: nat)
    requires a < |s.apps|
  {
    Balanced(s, a) && Honest(w, s, a)
  }

  // Entries that register and tell nobody, and are no failed start.
  lemma {:induction false} RemarkFair(w: World, s: State, r: State, a: nat)
    requires a < |s.apps| == |r.apps| && r.apps[a].callbacks == s.apps[a].callbacks
    requires r.history == s.history || (r.history.Then? && r.history.past == s.history
      && !r.history.entry.Registered? && !r.history.entry.Invoked? && Owed(w, r.history.entry, a).None?)
    ensures Fair(w, s, a) ==> Fair(w, r, a)
  {
    if r.history != s.history { EntryHonest(w, s, r, a); }
  }

  lemma {:induction false} RequireFair(w: World, s: State, c: nat, cb: Callback, a: nat)
    requires Valid(w, s) && c < |w.apps| && Linked(w, c, cb) && a < |w.apps| && Fair(w, s, a)
    ensures Fair(w, Require(w, s, c, cb), a)
    decreases w.rank[c], 6, 0
  {
    var s1 := Push(s, c, cb);
    EntryHonest(w, s, s1, a);
    if s.apps[c].callbacks == [] { CheckForRequireFair(w, s1, c, a); }
  }

  lemma {:induction false} CheckForRequireFair(w: World, s: State, c: nat, a: nat)
    requires Valid(w, s) && c < |w.apps| && a < |w.apps| && Fair(w, s, a)
    ensures Fair(w, CheckForRequire(w, s, c), a)
    decreases w.rank[c], 5, 0
  {
    if !w.apps[c].checker {
      CheckedFair(w, s, c, 0, a);
    } else if w.spawn(s.nextId) != 0 {
      var s1 := NewCheck(s, c, ForRequire).Log(CheckerFailed(c));
      RemarkFair(w, s, s1, a);
      CheckedFair(w, s1, c, w.spawn(s.nextId), a);
    }
  }

  lemma {:induction false} CheckedFair(w: World, s: State, c: nat, error: int, a: nat)
    requires Valid(w, s) && c < |w.apps| && a < |w.apps| && Fair(w, s, a)
    ensures Fair(w, Checked(w, s, c, error), a)
    decreases w.rank[c], 4, 0
  {
    var app := s.apps[c];
    if error == 0 && (w.apps[c].checker || app.process.Some?) {
      ClearHonest(w, s, c, 0, a);
    } else if error == 0 || app.process.None? {
      StartFair(w, s.Put(c, app.(requireStartTime := s.now)), c, a);
    } else {
      RemarkFair(w, s, s.Put(c, app.(restart := true)).Log(Killed(c, app.process.value)), a);
    }
  }

  lemma {:induction false} StartFair(w: World, s: State, c: nat, a: nat)
    requires Valid(w, s) && c < |w.apps| && a < |w.apps| && Fair(w, s, a)
    ensures Fair(w, Start(w, s, c), a)
    decreases w.rank[c], 3, 0
  {
    var s1 := Begin(w, s, c);
    RemarkFair(w, s, s1, a);
    if w.apps[c].preamble == [] { LaunchHonest(w, s1, c, 0, a); } else { PreamblesFair(w, s1, c, 0, a); }
  }

  lemma {:induction false} PreamblesFair(w: World, s: State, c: nat, i: nat, a: nat)
    requires Valid(w, s) && c < |w.apps| && i <= |w.apps[c].preamble| && a < |w.apps| && Fair(w, s, a)
    ensures Fair(w, RequirePreambles(w, s, c, i), a)
    decreases w.rank[c], 2, |w.apps[c].preamble| - i
  {
    if i < |w.apps[c].preamble| {
      RequireFair(w, s, w.apps[c].preamble[i], Preamble(c, i), a);
      PreamblesFair(w, Require(w, s, w.apps[c].preamble[i], Preamble(c, i)), c, i + 1, a);
    }
  }

  // ---------------------------------------------------------------- events and runs

  lemma {:induction false} TimerCheckedFair(w: World, s: State, c: nat, t: nat, error: int, a: nat)
    requires Valid(w, s) && c < |w.apps| && a < |w.apps| && Fair(w, s, a)
    ensures Fair(w, TimerChecked(w, s, c, t, error), a)
  {
    if Completes(w, s, c, error) { ClearHonest(w, CloseTimer(s, c, t), c, error, a); }
  }

  lemma {:induction false} TickFair(w: World, s: State, t: nat, a: nat)
    requires Valid(w, s) && t in s.timers && a < |w.apps| && Fair(w, s, a)
    ensures Fair(w, Tick(w, s, t), a)
  {
    var c, s1 := s.timers[t], s.Log(Ticked(s.timers[t]));
    RemarkFair(w, s, s1, a);
    if s.apps[c].callbacks != [] && !s.apps[c].checking {
      if !w.apps[c].checker {
        TimerCheckedFair(w, s1, c, t, 0, a);
      } else if w.spawn(s.nextId) != 0 {
        var s2 := NewCheck(s1, c, ForTimer(t)).Log(CheckerFailed(c));
        RemarkFair(w, s1, s2, a);
        TimerCheckedFair(w, s2, c, t, w.spawn(s.nextId), a);
      }
    }
  }

  lemma {:induction false} CheckReportedFair(w: World, s: State, h: nat, status: int, signal: int, a: nat)
    requires Valid(w, s) && h in s.checks && a < |w.apps| && Fair(w, s, a)
    ensures Fair(w, CheckReported(w, s, h, status, signal), a)
  {
    var s1, error := CheckSeen(s, h, status, signal), Int32(Outcome(status, signal));
    RemarkFair(w, s, s1, a);
    match s.checks[h].use
    case ForRequire => CheckedFair(w, s1, s.checks[h].app, error, a);
    case ForTimer(t) => TimerCheckedFair(w, s1, s.checks[h].app, t, error, a);
  }

  lemma {:induction false} ExitPays(w: World, s: State, p: nat, status: int, signal: int)
    requires Valid(w, s) && p in s.processes && Fair(w, s, s.processes[p])
    requires Owed(w, ExitSeen(s, p, status, signal).history.entry, s.processes[p]).Some?
    ensures Fair(w, Exited(w, s, p, status, signal), s.processes[p])
  {
    var a, s1, error := s.processes[p], ExitSeen(s, p, status, signal), Int32(Outcome(status, signal));
    FailureIsTold(w, s, s1, a, error);
    ClearHonest(w, s1, a, error, a);
  }

  lemma {:induction false} ExitedFair(w: World, s: State, p: nat, status: int, signal: int, a: nat)
    requires Valid(w, s) && p in s.processes && a < |w.apps| && Fair(w, s, a)
    ensures Fair(w, Exited(w, s, p, status, signal), a)
  {
    var c, s1 := s.processes[p], ExitSeen(s, p, status, signal);
    if c == a && Owed(w, s1.history.entry, a).Some? {
      ExitPays(w, s, p, status, signal);
    } else {
      RemarkFair(w, s, s1, a);
      if Outcome(status, signal) != 0 {
        if s.apps[c].restart { StartFair(w, NoRestart(s1, c), c, a); }
        else if !w.apps[c].checker { ClearHonest(w, s1, c, Int32(Outcome(status, signal)), a); }
      }
    }
  }

  lemma {:induction false} StepFair(w: World, s: State, e: Event, a: nat)
    requires Valid(w, s) && Enabled(w, s, e) && a < |w.apps| && Fair(w, s, a)
    ensures Fair(w, Step(w, s, e), a)
  {
    match e
    case UserRequires(c, id) =>
      RemarkFair(w, s, s.Log(Required(c)), a);
      RequireFair(w, s.Log(Required(c)), c, User(id), a);
    case CheckerExits(h, status, signal) => CheckReportedFair(w, s, h, status, signal, a);
    case ProcessExits(p, status, signal) => ExitedFair(w, s, p, status, signal, a);
    case TimerTicks(t) => TickFair(w, s, t, a);
    case TimePasses(_) => RemarkFair(w, s, Step(w, s, e), a);
  }

  lemma {:induction false} RunFair(w: World, es: seq<Event>, a: nat)
    requires w.Acyclic() && Run(w, es).Some? && a < |w.apps|
    ensures Fair(w, Run(w, es).value, a)
    decreases |es|
  {
    if es != [] {
      var n := |es| - 1;
      RunFair(w, es[..n], a);
      StepFair(w, Run(w, es[..n]).value, es[n], a);
    }
  }

  lemma {:induction false} OccursKept(w: World, h: History, past: History, e: Entry, a: nat, told: seq<(Callback, int)>)
    requires Kept(w, h, a, told) && Occurs(h, past, e) && Owed(w, e, a).Some?
    ensures Answers(past, a) + Each(Pending(past, a), Owed(w, e, a).value) <= told
  {
    if !(h.past == past && h.entry == e) { OccursKept(w, h.past, past, e, a, told); }
  }

  // In every run, when the preambles of `a` have answered and n > 0 of them failed, those that
  // wait for `a` are the next to be told, all of them, and they are told n.
  lemma {:induction false} WaitersGetCount(w: World, es: seq<Event>, past: History, a: nat, n: int)
    requires w.Acyclic() && Run(w, es).Some? && a < |w.apps|
    requires Occurs(Run(w, es).value.history, past, Refused(a, n))
    ensures Answers(past, a) + Each(Pending(past, a), n) <= Answers(Run(w, es).value.history, a)
    ensures n == Failures(past, a) != 0 && |Answered(past, a)| == |w.apps[a].preamble|
  {
    RunFair(w, es, a);
    OccursKept(w, Run(w, es).value.history, past, Refused(a, n), a, Answers(Run(w, es).value.history, a));
    RefusedWithCount(w, es, past, a, n);
  }

  // And when the process of `a` cannot be run, they are told its error.
  lemma {:induction false} WaitersGetError(w: World, es: seq<Event>, past: History, a: nat, p: nat)
    requires w.Acyclic() && Run(w, es).Some? && a < |w.apps| && w.spawn(p) != 0
    requires Occurs(Run(w, es).value.history, past, Spawned(a, p))
    ensures Answers(past, a) + Each(Pending(past, a), w.spawn(p)) <= Answers(Run(w, es).value.history, a)
  {
    RunFair(w, es, a);
    OccursKept(w, Run(w, es).value.history, past, Spawned(a, p), a, Answers(Run(w, es).value.history, a));
  }
  // And when a process of an app without a checker fails or ends by a signal, and was not killed
  // for a restart, they are told its status, or the signal if the status is 0.
  lemma {:induction false} WaitersGetStatus(w: World, es: seq<Event>, past: History, a: nat, p: nat, status: int, signal: int, killed: bool)
    requires w.Acyclic() && Run(w, es).Some? && a < |w.apps| && !w.apps[a].checker
    requires Occurs(Run(w, es).value.history, past, ProcessExited(a, p, status, signal, killed))
    requires !KilledSince(past, a) && (status != 0 || signal != 0)
    ensures Answers(past, a) + Each(Pending(past, a), Int32(if status != 0 then status else signal))
         <= Answers(Run(w, es).value.history, a)
  {
    var h, e := Run(w, es).value.history, ProcessExited(a, p, status, signal, killed);
    RunFair(w, es, a);
    RunNoted(w, es);
    OccursTrue(w, h, past, e);
    OccursKept(w, h, past, e, a, Answers(h, a));
  }
}
