/** What each event does, as callers and the environment can see it: who is told what, what is
    recorded next, which handles are opened and closed. */
module ProcessEffects {
  import opened Common
  import opened ProcessState
  import opened ProcessSteps
  import opened ProcessBooks
  import opened ProcessTrail
  import opened ProcessProgress
  import opened ProcessRuns
  import opened ProcessNotes

  // e is what is recorded after h, and a cascade follows.
  predicate Next(w: World, h: History, e: Entry, g: History) {
    Trail(w, Then(h, e), g, -1, |w.apps|)
  }

  // All that wait for `a` are told the error, each once and in order, and nobody else that
  // waits for it.
  ghost predicate TellsAll(s: State, r: State, a: nat, error: int)
    requires a < |s.apps| == |r.apps|
  {
    && Answers(r.history, a) == Answers(s.history, a) + Each(s.apps[a].callbacks, error)
    && r.apps[a].callbacks == []
  }

  ghost predicate SameHandles(s: State, r: State) {
    r.checks == s.checks && r.processes == s.processes && r.timers == s.timers
  }

  // Only e happens: nobody is told anything, and nothing is opened or closed.
  ghost predicate Only(s: State, r: State, e: Entry) {
    && r.history == Then(s.history, e) && SameHandles(s, r) && |r.apps| == |s.apps|
    && forall b :: 0 <= b < |s.apps| ==> r.apps[b].callbacks == s.apps[b].callbacks
  }

  // What callers are told of an exit fits an int, and differs from the status only by what an
  // int cannot hold.
  lemma {:induction false} Int32Wraps(x: int)
    ensures -2147483648 <= Int32(x) <= 2147483647
    ensures (x - Int32(x)) % 4294967296 == 0
    ensures -2147483648 <= x <= 2147483647 ==> Int32(x) == x
  {
    var q, m := x / 0x1_0000_0000, x % 0x1_0000_0000;
    assert x == q * 0x1_0000_0000 + m;
    assert (x - Int32(x)) % 0x1_0000_0000 == 0 by {
      if m < 0x8000_0000 {
        Multiple(q);
      } else {
        Multiple(q + 1);
      }
    }
  }

  lemma {:induction false} Multiple(q: int)
    ensures (q * 0x1_0000_0000) % 0x1_0000_0000 == 0
  {
  }

  // ---------------------------------------------------------------- calls

  // An app that has waiters is checked already: a further caller only joins them.
  lemma {:induction false} LaterCaller(w: World, s: State, a: nat, id: nat)
    requires Valid(w, s) && a < |w.apps| && s.apps[a].callbacks != []
    ensures var r := Step(w, s, UserRequires(a, id));
      && r.history == Then(Then(s.history, Required(a)), Registered(a, User(id), true))
      && SameHandles(s, r) && r.apps[a].callbacks == s.apps[a].callbacks + [User(id)]
  {
  }

  // A check that fails has the process of the app killed, if it has one; else the app is started.
  ghost predicate Reacts(w: World, s: State, queue: seq<Callback>, h: History, r: State, a: nat)
    requires a < |s.apps| == |r.apps|
  {
    match LastChild(w, s.history, a)
    case Some(p) => r.history == Then(h, Killed(a, p)) && r.apps[a].callbacks == queue
    case None => Next(w, h, Started(a, s.apps[a].pendingPreamble), r.history)
  }

  // The first caller has the app checked. Without a checker it is up if it has a process.
  lemma {:induction false} FirstCaller(w: World, s: State, a: nat, id: nat)
    requires Valid(w, s) && Noted(w, s) && a < |w.apps| && s.apps[a].callbacks == [] && !w.apps[a].checker
    ensures var r := Step(w, s, UserRequires(a, id));
      var h := Then(Then(s.history, Required(a)), Registered(a, User(id), Quiet(s, a)));
      if LastChild(w, s.history, a).Some? then Answers(r.history, a) == Answers(s.history, a) + [(User(id), 0)]
      else Next(w, h, Started(a, s.apps[a].pendingPreamble), r.history)
  {
    var s1 := Push(s.Log(Required(a)), a, User(id));
    PushKeeps(w, s, a, User(id));
    assert Step(w, s, UserRequires(a, id)) == CheckForRequire(w, s1, a) == Checked(w, s1, a, 0);
    CheckEnds(w, s1, a, 0);
    assert s1.apps[a].callbacks == [User(id)];
    OneWaiter(User(id));
  }

  lemma {:induction false} OneWaiter(cb: Callback)
    ensures Each([cb], 0) == [(cb, 0)]
  {
    assert [cb][1..] == [];
  }

  lemma {:induction false} PushKeeps(w: World, s: State, a: nat, cb: Callback)
    requires a < |s.apps| == |w.apps| && Noted(w, s)
    ensures var r := Push(s.Log(Required(a)), a, cb);
      && LastChild(w, r.history, a) == LastChild(w, s.history, a) == r.apps[a].process
      && Answers(r.history, a) == Answers(s.history, a)
      && (s.apps[a].callbacks == [] ==> r.history == Then(Then(s.history, Required(a)), Registered(a, cb, Quiet(s, a))))
  {
    assert Fields(w, s, a);
    assert LastChild(w, s.Log(Required(a)).history, a) == LastChild(w, s.history, a);
    assert Quiet(s.Log(Required(a)), a) == Quiet(s, a);
  }

  // With a checker, a check is under way.
  lemma {:induction false} FirstCallerAsks(w: World, s: State, a: nat, id: nat)
    requires Valid(w, s) && Noted(w, s) && a < |w.apps| && s.apps[a].callbacks == [] && w.apps[a].checker
    ensures var r := Step(w, s, UserRequires(a, id));
      var h := Then(Then(s.history, Required(a)), Registered(a, User(id), Quiet(s, a)));
      && s.nextId in r.checks && r.checks[s.nextId] == Check(a, ForRequire)
      && (if w.spawn(s.nextId) == 0 then r.history == h && r.apps[a].callbacks == [User(id)]
          else Reacts(w, s, [User(id)], Then(h, CheckerFailed(a)), r, a))
  {
    var s1 := Push(s.Log(Required(a)), a, User(id));
    PushKeeps(w, s, a, User(id));
    assert Step(w, s, UserRequires(a, id)) == CheckForRequire(w, s1, a);
    if w.spawn(s.nextId) != 0 {
      var s2 := NewCheck(s1, a, ForRequire).Log(CheckerFailed(a));
      assert s2.nextId == s.nextId + 1 && s2.checks[s.nextId] == Check(a, ForRequire);
      assert LastChild(w, s2.history, a) == LastChild(w, s1.history, a);
      CheckEnds(w, s2, a, w.spawn(s.nextId));
    }
  }

  lemma {:induction false} CheckEnds(w: World, s: State, a: nat, error: int)
    requires Valid(w, s) && a < |w.apps| && s.apps[a].process == LastChild(w, s.history, a)
    ensures var r := Checked(w, s, a, error);
      && Opens(s, r)
      && if error == 0 && (w.apps[a].checker || LastChild(w, s.history, a).Some?) then TellsAll(s, r, a, 0)
         else Reacts(w, s, s.apps[a].callbacks, s.history, r, a)
  {
    CheckedLeads(w, s, a, error, -1, |w.apps|);
    if error == 0 && (w.apps[a].checker || s.apps[a].process.Some?) {
      ClearTellsAll(w, s, a, 0);
    } else if s.apps[a].process.None? {
      StartIsNext(w, s.Put(a, s.apps[a].(requireStartTime := s.now)), a);
    }
  }

  lemma {:induction false} StartIsNext(w: World, s: State, a: nat)
    requires Valid(w, s) && a < |w.apps|
    ensures Next(w, s.history, Started(a, s.apps[a].pendingPreamble), Start(w, s, a).history)
  {
    var s1 := Begin(w, s, a);
    if w.apps[a].preamble == [] {
      LaunchLeads(w, s1, a, 0, -1, |w.apps|);
    } else {
      PreamblesLead(w, s1, a, 0, -1, |w.apps|);
    }
  }

  // A start whose preambles are all up creates a process and a timer that is to check on it, even
  // if the process cannot be run; and one with a preamble that is not is refused.
  lemma {:induction false} LaunchOpens(w: World, s: State, a: nat, failed: int)
    requires Valid(w, s) && a < |w.apps|
    ensures var r, p := Launch(w, s, a, failed), s.nextId;
      if failed != 0 then Next(w, s.history, Refused(a, failed), r.history)
      else
        && Next(w, s.history, Spawned(a, p), r.history)
        && p in r.processes && r.processes[p] == a && p + 1 in r.timers && r.timers[p + 1] == a
  {
    var s1, p := Launching(s, a, failed), s.nextId;
    if failed != 0 {
      ClearLeads(w, s1, a, failed, -1, |w.apps|);
    } else if w.spawn(p) != 0 {
      ClearLeads(w, NoProcess(s1, a), a, w.spawn(p), -1, |w.apps|);
      assert p in s1.processes && p + 1 in s1.timers;
    }
  }

  // The checker reports to Require.
  lemma {:induction false} CheckerReports(w: World, s: State, h: nat, status: int, signal: int)
    requires Valid(w, s) && Noted(w, s) && h in s.checks && s.checks[h].use.ForRequire?
    ensures var a, r := s.checks[h].app, Step(w, s, CheckerExits(h, status, signal));
      && h !in r.checks
      && if Int32(if status != 0 then status else signal) == 0 then TellsAll(s, r, a, 0)
         else Reacts(w, s, s.apps[a].callbacks, Then(s.history, CheckExited(a, status, signal)), r, a)
  {
    var a, s1, error := s.checks[h].app, CheckSeen(s, h, status, signal), Int32(Outcome(status, signal));
    assert Fields(w, s, a);
    assert LastChild(w, s1.history, a) == LastChild(w, s.history, a) && Answers(s1.history, a) == Answers(s.history, a);
    assert Step(w, s, CheckerExits(h, status, signal)) == Checked(w, s1, a, error) && w.apps[a].checker;
    CheckEnds(w, s1, a, error);
  }

  // ---------------------------------------------------------------- start timers

  // A tick has the app checked on behalf of the timer, once: until that check reports,
  // further ticks do nothing.
  lemma {:induction false} TickAsks(w: World, s: State, t: nat)
    requires Valid(w, s) && t in s.timers && w.spawn(s.nextId) == 0
    requires var a := s.timers[t]; s.apps[a].callbacks != [] && !s.apps[a].checking && w.apps[a].checker
    ensures var a, r := s.timers[t], Step(w, s, TimerTicks(t));
      && r.checks == s.checks[s.nextId := Check(a, ForTimer(t))]
      && r.processes == s.processes && r.timers == s.timers
      && r.history == Then(s.history, Ticked(a)) && r.apps[a].callbacks == s.apps[a].callbacks
      && Only(r, Step(w, r, TimerTicks(t)), Ticked(a))
  {
  }

  // Where nobody waits, it closes the timer.
  lemma {:induction false} TickEnds(w: World, s: State, t: nat)
    requires Valid(w, s) && t in s.timers && s.apps[s.timers[t]].callbacks == []
    ensures var r := Step(w, s, TimerTicks(t));
      && r.history == Then(s.history, Ticked(s.timers[t]))
      && r.timers == s.timers - {t} && r.checks == s.checks && r.processes == s.processes
  {
  }

  // What a timer makes of the outcome of its check: whether it is done, with all waiters told
  // that outcome, or goes on with all of them waiting.
  ghost predicate TimerReacts(w: World, s: State, r: State, a: nat, t: nat, error: int)
    requires a < |s.apps| == |r.apps| == |w.apps|
  {
    var elapsed := Clock(s.history) - CalledAt(s.history, a);
    if error == 0 || error == -2 || (w.apps[a].maxStartTime > 0 && elapsed > w.apps[a].maxStartTime)
    then TellsAll(s, r, a, error) && t !in r.timers
    else
      && r.timers == s.timers && r.processes == s.processes && r.apps[a].callbacks == s.apps[a].callbacks
      && Answers(r.history, a) == Answers(s.history, a)
  }

  lemma {:induction false} TimerToldOf(w: World, s: State, a: nat, t: nat, error: int)
    requires Valid(w, s) && a < |w.apps| && t < s.nextId
    requires s.now == Clock(s.history) && Dated(s, a)
    ensures var r := TimerChecked(w, s, a, t, error);
      TimerReacts(w, s, r, a, t, error) && SameBefore(s.checks, r.checks, s.nextId)
  {
    if Completes(w, s, a, error) {
      var s1 := CloseTimer(s, a, t);
      ClearTellsAll(w, s1, a, error);
      ClearLeads(w, s1, a, error, -1, -1);
      assert t !in s1.timers;
    }
  }

  // An entry that tells nobody, starts nothing and takes no time makes no difference to that.
  lemma {:induction false} ReactsBefore(w: World, s: State, m: State, r: State, a: nat, t: nat, error: int)
    requires a < |s.apps| == |r.apps| == |w.apps| == |m.apps| && TimerReacts(w, m, r, a, t, error)
    requires m.history.Then? && m.history.past == s.history && Plain(m.history.entry) && !m.history.entry.Invoked?
    requires m.timers == s.timers && m.processes == s.processes && m.apps[a].callbacks == s.apps[a].callbacks
    ensures TimerReacts(w, s, r, a, t, error)
  {
    assert Clock(m.history) == Clock(s.history) && CalledAt(m.history, a) == CalledAt(s.history, a);
    assert Answers(m.history, a) == Answers(s.history, a);
  }

  lemma {:induction false} TimerAsks(w: World, s: State, a: nat, t: nat)
    requires Valid(w, s) && Noted(w, s) && a < |w.apps| && t < s.nextId
    requires w.apps[a].checker ==> w.spawn(s.nextId) != 0
    ensures var r := CheckForTimer(w, s, a, t);
      && TimerReacts(w, s, r, a, t, if w.apps[a].checker then w.spawn(s.nextId) else 0)
      && (w.apps[a].checker ==> s.nextId in r.checks && r.checks[s.nextId] == Check(a, ForTimer(t)))
  {
    if !w.apps[a].checker {
      assert Dated(s, a);
      TimerToldOf(w, s, a, t, 0);
    } else {
      var s1, error := NewCheck(s, a, ForTimer(t)), w.spawn(s.nextId);
      var s2 := s1.Log(CheckerFailed(a));
      NewCheckNoted(w, s, a, ForTimer(t));
      assert Dated(s2, a) && s.nextId in s2.checks;
      TimerToldOf(w, s2, a, t, error);
      ReactsBefore(w, s1, s2, TimerChecked(w, s2, a, t, error), a, t, error);
    }
  }

  // Without a checker, a tick tells all waiters that the app is up. A checker that cannot be run
  // counts as a check with its error, and its exit is still to come.
  lemma {:induction false} TickTells(w: World, s: State, t: nat)
    requires Valid(w, s) && Noted(w, s) && t in s.timers
    requires s.apps[s.timers[t]].callbacks != [] && !s.apps[s.timers[t]].checking
    requires w.apps[s.timers[t]].checker ==> w.spawn(s.nextId) != 0
    ensures var a, r := s.timers[t], Step(w, s, TimerTicks(t));
      if !w.apps[a].checker then TellsAll(s, r, a, 0) && t !in r.timers
      else
        && TimerReacts(w, s, r, a, t, w.spawn(s.nextId))
        && s.nextId in r.checks && r.checks[s.nextId] == Check(a, ForTimer(t))
  {
    var a, s1 := s.timers[t], s.Log(Ticked(s.timers[t]));
    assert Noted(w, s1) by { PlainNoted(w, s, s1); }
    TimerAsks(w, s1, a, t);
    ReactsBefore(w, s, s1, Step(w, s, TimerTicks(t)), a, t, if w.apps[a].checker then w.spawn(s.nextId) else 0);
  }

  lemma {:induction false} TimerReports(w: World, s: State, h: nat, status: int, signal: int)
    requires Valid(w, s) && Noted(w, s) && h in s.checks && s.checks[h].use.ForTimer? && s.checks[h].use.timer < s.nextId
    ensures var a, r := s.checks[h].app, Step(w, s, CheckerExits(h, status, signal));
      && TimerReacts(w, s, r, a, s.checks[h].use.timer, Int32(if status != 0 then status else signal))
      && h !in r.checks
  {
    var a, t, s1, error := s.checks[h].app, s.checks[h].use.timer, CheckSeen(s, h, status, signal), Int32(Outcome(status, signal));
    assert Dated(s, a);
    assert Dated(s1, a);
    TimerToldOf(w, s1, a, t, error);
    ReactsBefore(w, s, s1, TimerChecked(w, s1, a, t, error), a, t, error);
  }

  // ---------------------------------------------------------------- exits

  // A clean exit is only recorded, restart or not.
  lemma {:induction false} CleanExitOnly(w: World, s: State, p: nat)
    requires Valid(w, s) && Noted(w, s) && p in s.processes
    ensures var a, r := s.processes[p], Step(w, s, ProcessExits(p, 0, 0));
      && r.history == Then(s.history, ProcessExited(a, p, 0, 0, KilledSince(s.history, a)))
      && r.processes == s.processes - {p} && r.checks == s.checks && r.timers == s.timers
      && r.apps[a].callbacks == s.apps[a].callbacks
  {
    assert Fields(w, s, s.processes[p]);
  }

  // A process that was killed is followed by a start, even of an app nobody waits for any more.
  lemma {:induction false} FailedExitRestarts(w: World, s: State, p: nat, status: int, signal: int)
    requires Valid(w, s) && Noted(w, s) && p in s.processes && (status != 0 || signal != 0)
    requires KilledSince(s.history, s.processes[p])
    ensures var a, r := s.processes[p], Step(w, s, ProcessExits(p, status, signal));
      && p !in r.processes
      && Next(w, Then(s.history, ProcessExited(a, p, status, signal, true)), Started(a, s.apps[a].pendingPreamble), r.history)
  {
    var a, s1 := s.processes[p], ExitSeen(s, p, status, signal);
    assert Fields(w, s, a) && p !in s1.processes;
    assert p !in Start(w, NoRestart(s1, a), a).processes by { StartLeads(w, NoRestart(s1, a), a, -1, |w.apps|); }
    StartIsNext(w, NoRestart(s1, a), a);
  }

  // The failure of any other is told to all waiters, unless a checker is to tell.
  lemma {:induction false} FailedExitTells(w: World, s: State, p: nat, status: int, signal: int)
    requires Valid(w, s) && Noted(w, s) && p in s.processes && (status != 0 || signal != 0)
    requires !KilledSince(s.history, s.processes[p])
    ensures var a, r := s.processes[p], Step(w, s, ProcessExits(p, status, signal));
      && p !in r.processes
      && (!w.apps[a].checker ==> TellsAll(s, r, a, Int32(if status != 0 then status else signal)))
      && (w.apps[a].checker ==> r.apps[a].callbacks == s.apps[a].callbacks)
      && (w.apps[a].checker ==> r.history == Then(s.history, ProcessExited(a, p, status, signal, false)))
  {
    var a, s1, error := s.processes[p], ExitSeen(s, p, status, signal), Int32(Outcome(status, signal));
    assert Fields(w, s, a) && p !in s1.processes;
    if !w.apps[a].checker {
      assert Step(w, s, ProcessExits(p, status, signal)) == Clear(w, s1, a, error);
      assert p !in Clear(w, s1, a, error).processes by { ClearLeads(w, s1, a, error, -1, -1); }
      assert s1.apps[a].callbacks == s.apps[a].callbacks && Answers(s1.history, a) == Answers(s.history, a);
      ClearTellsAll(w, s1, a, error);
    }
  }

  // ---------------------------------------------------------------- every run

  // In every run, a start timer whose check has ended tells the waiters exactly if the check
  // succeeded, if its error is -2, or if the app was given a time to start in and more has passed
  // since a check last started it; and then it tells them that error. Otherwise it goes on.
  lemma {:induction false} TimerTellsExactly(w: World, es: seq<Event>, h: nat, status: int, signal: int)
    requires w.Acyclic() && Run(w, es).Some?
    requires var s := Run(w, es).value; h in s.checks && s.checks[h].use.ForTimer?
    ensures var e := CheckerExits(h, status, signal);
      && Run(w, es + [e]).Some?
      && var s, r := Run(w, es).value, Run(w, es + [e]).value;
        var a, t, error := s.checks[h].app, s.checks[h].use.timer, Int32(if status != 0 then status else signal);
        var late := 0 < w.apps[a].maxStartTime < Elapsed(es) - CalledAt(s.history, a);
        if error == 0 || error == -2 || late then TellsAll(s, r, a, error) && t !in r.timers
        else
          && Answers(r.history, a) == Answers(s.history, a) && r.apps[a].callbacks == s.apps[a].callbacks
          && r.timers == s.timers
  {
    var e := CheckerExits(h, status, signal);
    RunKeeps(w, es);
    RunNoted(w, es);
    ClockIsElapsed(w, es);
    TimerReports(w, Run(w, es).value, h, status, signal);
    assert (es + [e])[..|es|] == es;
  }
}
