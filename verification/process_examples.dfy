/** Two runs that show where the promises of the process manager end: a restart lost to a
    clean exit, and preambles counted wrongly after a checker that cannot be run. */
module ProcessExamples {
  import opened Common
  import opened ProcessState
  import opened ProcessSteps
  import opened ProcessBooks
  import opened ProcessProgress
  import opened ProcessCalm
  import opened ProcessRuns

  lemma {:induction false} RunMore(w: World, es: seq<Event>, e: Event, s: State)
    requires w.Acyclic() && Run(w, es) == Some(s) && Enabled(w, s, e)
    ensures Run(w, es + [e]) == Some(Step(w, s, e))
  {
    assert (es + [e])[..|es|] == es;
  }

  // ---------------------------------------------------------------- a lost restart

  // One app with a checker and no preamble; every process starts.
  function Solitary(): World {
    World([AppConfig(true, 0, [])], [0], _ => 0)
  }

  // What a state of that world shows apart from its history.
  ghost predicate Shows(s: State, app: App, checks: map<nat, Check>, processes: map<nat, nat>, timers: map<nat, nat>, next: nat) {
    Valid(Solitary(), s) && s.apps == [app] && s.checks == checks && s.processes == processes && s.timers == timers && s.nextId == next
      && s.now == 0
  }

  lemma {:induction false} FirstCall(s: State, app: App, id: nat, processes: map<nat, nat>, timers: map<nat, nat>, next: nat)
    requires Shows(s, app, map[], processes, timers, next) && app.callbacks == []
    ensures Shows(Step(Solitary(), s, UserRequires(0, id)), app.(callbacks := [User(id)]),
                  map[next := Check(0, ForRequire)], processes, timers, next + 1)
  {
    var s1 := Push(s.Log(Required(0)), 0, User(id));
    assert s1.apps[0] == app.(callbacks := [User(id)]) && s1.apps == [s1.apps[0]];
  }

  lemma {:induction false} FailedCheckStarts(s: State, app: App, h: nat, next: nat)
    requires Shows(s, app, map[h := Check(0, ForRequire)], map[], map[], next) && app.process == None
    ensures Shows(Step(Solitary(), s, CheckerExits(h, 1, 0)),
                  app.(process := Some(next), checkerTimer := Some(next + 1), checking := false, requireStartTime := 0,
                       pendingPreamble := 0, errorPreamble := 0),
                  map[], map[next := 0], map[next + 1 := 0], next + 2)
  {
    var w, s1 := Solitary(), CheckSeen(s, h, 1, 0);
    assert s1.checks == map[] && Int32(Outcome(1, 0)) == 1;
    var s2 := s1.Put(0, s1.apps[0].(requireStartTime := s1.now));
    assert Checked(w, s1, 0, 1) == Start(w, s2, 0);
    var s3 := Begin(w, s2, 0);
    assert Start(w, s2, 0) == Launch(w, s3, 0, 0) == Launching(s3, 0, 0);
  }

  lemma {:induction false} TickChecks(s: State, app: App, p: nat, t: nat, next: nat)
    requires Shows(s, app, map[], map[p := 0], map[t := 0], next) && app.callbacks != [] && !app.checking
    ensures Shows(Step(Solitary(), s, TimerTicks(t)), app.(checking := true),
                  map[next := Check(0, ForTimer(t))], map[p := 0], map[t := 0], next + 1)
  {
    var s1 := s.Log(Ticked(0));
    assert Tick(Solitary(), s, t) == SetChecking(NewCheck(s1, 0, ForTimer(t)), 0, true);
  }

  lemma {:induction false} PassedCheckAnswers(s: State, app: App, h: nat, p: nat, t: nat, next: nat)
    requires Shows(s, app, map[h := Check(0, ForTimer(t))], map[p := 0], map[t := 0], next)
    requires |app.callbacks| == 1 && app.callbacks[0].User?
    ensures Shows(Step(Solitary(), s, CheckerExits(h, 0, 0)), app.(callbacks := [], checkerTimer := None, checking := false),
                  map[], map[p := 0], map[], next)
  {
    var w, s1 := Solitary(), CheckSeen(s, h, 0, 0);
    var s2 := CloseTimer(s1, 0, t);
    assert s1.checks == map[] && s2.timers == map[] && Int32(Outcome(0, 0)) == 0;
    var s3 := Answer(w, Pop(s2, 0), 0, app.callbacks[0], 0);
    assert Clear(w, s2, 0, 0) == Clear(w, s3, 0, 0) == s3;
  }

  lemma {:induction false} FailedCheckKills(s: State, app: App, h: nat, p: nat, next: nat)
    requires Shows(s, app, map[h := Check(0, ForRequire)], map[p := 0], map[], next) && app.process.Some?
    ensures Shows(Step(Solitary(), s, CheckerExits(h, 1, 0)), app.(restart := true), map[], map[p := 0], map[], next)
  {
    var s1 := CheckSeen(s, h, 1, 0);
    assert s1.checks == map[] && Int32(Outcome(1, 0)) == 1;
  }

  lemma {:induction false} CleanExitLoses(s: State, app: App, p: nat, next: nat)
    requires Shows(s, app, map[], map[p := 0], map[], next) && app.restart && app.callbacks != [] && app.pendingPreamble == 0
    ensures LosesRestart(s, ProcessExits(p, 0, 0))
    ensures Shows(Step(Solitary(), s, ProcessExits(p, 0, 0)), app.(process := None), map[], map[], map[], next)
  {
  }

  // The app is started, checked and its first caller answered; asked for again, it fails its
  // check and is killed; then it exits with status 0.
  const START: seq<Event> := [UserRequires(0, 1), CheckerExits(0, 1, 0)]
  const ANSWER: seq<Event> := [TimerTicks(2), CheckerExits(3, 0, 0)]
  const LOSE: seq<Event> := [UserRequires(0, 2), CheckerExits(4, 1, 0), ProcessExits(1, 0, 0)]

  // A caller that waits for ever: the run ends with a waiter and with no checker, process or
  // timer left that could ever report.
  lemma {:induction false} RestartCanBeLost()
    ensures var es := START + ANSWER + LOSE;
      && Run(Solitary(), es).Some? && !AlwaysServed(Solitary(), es)
      && var s := Run(Solitary(), es).value;
        s.apps[0].callbacks == [User(2)] && s.checks == map[] && s.processes == map[] && s.timers == map[]
  {
    var s2, app2 := FirstStart();
    var s4, app4 := FirstAnswer(START, s2, app2);
    SecondHalf(START + ANSWER, s4, app4);
  }

  lemma {:induction false} FirstStart() returns (s: State, app: App)
    ensures Run(Solitary(), START) == Some(s)
    ensures Shows(s, app, map[], map[1 := 0], map[2 := 0], 3)
    ensures app == App(Some(1), [User(1)], false, 0, 0, 0, Some(2), false)
  {
    var w := Solitary();
    var s0, app0 := Initial(w), App(None, [], false, 0, 0, 0, None, false);
    assert s0.apps == [app0];
    FirstCall(s0, app0, 1, map[], map[], 0);
    var s1 := Step(w, s0, UserRequires(0, 1));
    RunMore(w, [], UserRequires(0, 1), s0);
    FailedCheckStarts(s1, s1.apps[0], 0, 1);
    s := Step(w, s1, CheckerExits(0, 1, 0));
    RunMore(w, [UserRequires(0, 1)], CheckerExits(0, 1, 0), s1);
    assert [UserRequires(0, 1)] + [CheckerExits(0, 1, 0)] == START;
    app := s.apps[0];
  }

  lemma {:induction false} FirstAnswer(es: seq<Event>, s: State, app: App) returns (r: State, app': App)
    requires Run(Solitary(), es) == Some(s) && Shows(s, app, map[], map[1 := 0], map[2 := 0], 3)
    requires app.callbacks == [User(1)] && !app.checking && app.process == Some(1) && app.pendingPreamble == 0
    ensures Run(Solitary(), es + ANSWER) == Some(r)
    ensures Shows(r, app', map[], map[1 := 0], map[], 4)
    ensures app'.callbacks == [] && app'.process == Some(1) && app'.pendingPreamble == 0
  {
    var w := Solitary();
    TickChecks(s, app, 1, 2, 3);
    var s1 := Step(w, s, TimerTicks(2));
    RunMore(w, es, TimerTicks(2), s);
    PassedCheckAnswers(s1, s1.apps[0], 3, 1, 2, 4);
    r := Step(w, s1, CheckerExits(3, 0, 0));
    RunMore(w, es + [TimerTicks(2)], CheckerExits(3, 0, 0), s1);
    assert es + [TimerTicks(2)] + [CheckerExits(3, 0, 0)] == es + ANSWER;
    app' := r.apps[0];
  }

  lemma {:induction false} SecondHalf(es: seq<Event>, s: State, app: App)
    requires Run(Solitary(), es) == Some(s)
    requires Shows(s, app, map[], map[1 := 0], map[], 4)
    requires app.callbacks == [] && app.process == Some(1) && app.pendingPreamble == 0
    ensures var fs := es + LOSE;
      && Run(Solitary(), fs).Some? && !AlwaysServed(Solitary(), fs)
      && var r := Run(Solitary(), fs).value;
        r.apps[0].callbacks == [User(2)] && r.checks == map[] && r.processes == map[] && r.timers == map[]
  {
    var w := Solitary();
    FirstCall(s, app, 2, map[1 := 0], map[], 4);
    var s1 := Step(w, s, UserRequires(0, 2));
    RunMore(w, es, UserRequires(0, 2), s);
    FailedCheckKills(s1, s1.apps[0], 4, 1, 5);
    var s2 := Step(w, s1, CheckerExits(4, 1, 0));
    RunMore(w, es + [UserRequires(0, 2)], CheckerExits(4, 1, 0), s1);
    CleanExitLoses(s2, s2.apps[0], 1, 5);
    var es2 := es + [UserRequires(0, 2)] + [CheckerExits(4, 1, 0)];
    RunMore(w, es2, ProcessExits(1, 0, 0), s2);
    var fs := es2 + [ProcessExits(1, 0, 0)];
    assert fs == es + LOSE;
    assert fs[..|fs| - 1] == es2;
    RunKeeps(w, es2);
    NoStuckWaiter(w, fs);
  }

  // ---------------------------------------------------------------- a wrong count

  // App 1 has app 0 as its preamble. Both have checkers; that of app 1 cannot be run.
  function Paired(): World {
    World([AppConfig(true, 0, []), AppConfig(true, 0, [0])], [0, 1], h => if h == 0 then -ENOENT else 0)
  }

  lemma {:induction false} DoubleFirst(s: State)
    requires s == Initial(Paired()) && Valid(Paired(), s)
    ensures var r := Step(Paired(), s, UserRequires(1, 1));
      && 0 in r.checks && r.checks[0] == Check(1, ForRequire)
      && r.apps[0].callbacks == [Preamble(1, 0)]
      && r.apps[1].callbacks == [User(1)] && r.apps[1].process == None
      && !Orderly(r.history)
  {
    var w := Paired();
    var s1 := Push(s.Log(Required(1)), 1, User(1));
    var s2 := CannotCheck(s1);
    StartsFirst(s2);
  }

  // The checker of app 1 does not start, so the app itself is started.
  lemma {:induction false} CannotCheck(s: State) returns (r: State)
    requires Valid(Paired(), s) && s.nextId == 0 && s.apps[1].process == None
    ensures Valid(Paired(), r) && r.nextId == 1 && !Orderly(r.history)
    ensures CheckForRequire(Paired(), s, 1) == Start(Paired(), r, 1)
    ensures 0 in r.checks && r.checks[0] == Check(1, ForRequire)
    ensures r.apps[0] == s.apps[0] && r.apps[1].callbacks == s.apps[1].callbacks && r.apps[1].process == None
  {
    var w, s1 := Paired(), NewCheck(s, 1, ForRequire).Log(CheckerFailed(1));
    assert w.spawn(s.nextId) == -ENOENT;
    r := s1.Put(1, s1.apps[1].(requireStartTime := s1.now));
    assert Checked(w, s1, 1, -ENOENT) == Start(w, r, 1);
  }

  lemma {:induction false} StartsFirst(s: State)
    requires Valid(Paired(), s) && s.nextId == 1 && s.apps[0].callbacks == [] && !Orderly(s.history)
    ensures var r := Start(Paired(), s, 1);
      && r.checks == s.checks[1 := Check(0, ForRequire)]
      && r.apps[0].callbacks == [Preamble(1, 0)]
      && r.apps[1].callbacks == s.apps[1].callbacks && r.apps[1].process == s.apps[1].process
      && !Orderly(r.history)
  {
    var w := Paired();
    var s1 := Begin(w, s, 1);
    StartsPreamble(s1);
    var s2 := Push(s1, 0, Preamble(1, 0));
    assert !Orderly(s1.history) && !Orderly(s2.history);
    assert Start(w, s, 1) == Require(w, s1, 0, Preamble(1, 0)) == CheckForRequire(w, s2, 0);
    assert w.spawn(s2.nextId) == 0;
  }

  lemma {:induction false} StartsPreamble(s: State)
    requires Valid(Paired(), s)
    ensures RequirePreambles(Paired(), s, 1, 0) == Require(Paired(), s, 0, Preamble(1, 0))
  {
    var r := Require(Paired(), s, Paired().apps[1].preamble[0], Preamble(1, 0));
    assert RequirePreambles(Paired(), r, 1, 1) == r;
  }

  lemma {:induction false} DoubleSecond(s: State)
    requires Valid(Paired(), s) && 0 in s.checks && s.checks[0] == Check(1, ForRequire)
    requires s.apps[0].callbacks == [Preamble(1, 0)] && s.apps[1].callbacks == [User(1)] && s.apps[1].process == None
    requires !Orderly(s.history)
    ensures var r := Step(Paired(), s, CheckerExits(0, -1, -1));
      && r.apps[0].callbacks == [Preamble(1, 0), Preamble(1, 0)]
      && r.apps[1].callbacks == [User(1)] && r.apps[1].pendingPreamble == 1
      && !Orderly(r.history)
  {
    var w, s1 := Paired(), CheckSeen(s, 0, -1, -1);
    assert Int32(Outcome(-1, -1)) == -1;
    var s2 := s1.Put(1, s1.apps[1].(requireStartTime := s1.now));
    assert Checked(w, s1, 1, -1) == Start(w, s2, 1);
    var s3 := Begin(w, s2, 1);
    StartsPreamble(s3);
    assert !Orderly(s1.history) && !Orderly(s3.history);
    assert Start(w, s2, 1) == Push(s3, 0, Preamble(1, 0));
  }

  // The checker is reported once when it does not start and again when its handle closes, so
  // the app is started twice: it then expects one answer of its preamble and two are queued.
  lemma {:induction false} CountCanBeWrong()
    ensures var es := [UserRequires(1, 1), CheckerExits(0, -1, -1)];
      && Run(Paired(), es).Some?
      && var s := Run(Paired(), es).value;
        && s.apps[1].pendingPreamble == 1 && s.apps[0].callbacks == [Preamble(1, 0), Preamble(1, 0)]
        && !Gated(s, 1) && !Orderly(s.history)
  {
    var w := Paired();
    var s0 := Initial(w);
    RunMore(w, [], UserRequires(1, 1), s0);
    DoubleFirst(s0);
    var s1 := Step(w, s0, UserRequires(1, 1));
    assert Run(w, [UserRequires(1, 1)]) == Some(s1);
    WrongCount(s1);
  }

  lemma {:induction false} WrongCount(s1: State)
    requires Run(Paired(), [UserRequires(1, 1)]) == Some(s1)
    requires 0 in s1.checks && s1.checks[0] == Check(1, ForRequire)
    requires s1.apps[0].callbacks == [Preamble(1, 0)] && s1.apps[1].callbacks == [User(1)] && s1.apps[1].process == None
    requires !Orderly(s1.history)
    ensures var es := [UserRequires(1, 1), CheckerExits(0, -1, -1)];
      && Run(Paired(), es).Some?
      && var s := Run(Paired(), es).value;
        && s.apps[1].pendingPreamble == 1 && s.apps[0].callbacks == [Preamble(1, 0), Preamble(1, 0)]
        && !Gated(s, 1) && !Orderly(s.history)
  {
    var w, es := Paired(), [UserRequires(1, 1), CheckerExits(0, -1, -1)];
    RunMore(w, [UserRequires(1, 1)], CheckerExits(0, -1, -1), s1);
    assert [UserRequires(1, 1)] + [CheckerExits(0, -1, -1)] == es;
    DoubleSecond(s1);
    TwoQueued(Step(w, s1, CheckerExits(0, -1, -1)).apps);
  }

  lemma {:induction false} TwoQueued(apps: seq<App>)
    requires |apps| == 2 && apps[0].callbacks == [Preamble(1, 0), Preamble(1, 0)] && apps[1].callbacks == [User(1)]
    ensures |Queued(apps, 2, 1)| == 2
  {
    var q := apps[0].callbacks;
    assert q[1..] == [Preamble(1, 0)] && q[1..][1..] == [];
    assert SlotsIn(q[1..], 1) == multiset{0};
    assert SlotsIn(q, 1) == multiset{0, 0};
    assert apps[1].callbacks[1..] == [];
    assert Queued(apps, 1, 1) == multiset{0, 0};
  }
}
