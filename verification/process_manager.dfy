/** The process manager itself: an object whose handlers update the apps in place. Every
    method has the effect ProcessSteps gives it, loops over live vectors included. */
module ProcessManagement {
  import opened Common
  import opened ProcessState
  import opened ProcessSteps

  // ---------------------------------------------------------------- iterating a live vector

  function SetQueue(s: State, a: nat, q: seq<Callback>): State
    requires a < |s.apps|
  {
    s.Put(a, s.apps[a].(callbacks := q))
  }

  ghost predicate LinkedQueue(w: World, a: nat, q: seq<Callback>) {
    forall k :: 0 <= k < |q| ==> Linked(w, a, q[k])
  }

  // While the waiters of `a` are called, nothing that follows from it looks at the queue of
  // `a` or changes it: a call acts alike whatever that queue holds.
  lemma {:induction false} AnswerIgnoresQueue(w: World, s: State, c: nat, cb: Callback, error: int, a: nat, q: seq<Callback>)
    requires Valid(w, s) && c < |w.apps| && Linked(w, c, cb) && a < |w.apps| && w.rank[a] <= w.rank[c]
    requires LinkedQueue(w, a, q)
    ensures Answer(w, SetQueue(s, a, q), c, cb, error) == SetQueue(Answer(w, s, c, cb, error), a, q)
    decreases |w.apps| - w.rank[c], 0, 0
  {
    var s1, s1' := Told(s, c, cb, error), Told(SetQueue(s, a, q), c, cb, error);
    assert s1' == SetQueue(s1, a, q) by {
      assert s1'.apps == SetQueue(s1, a, q).apps;
    }
    if cb.Preamble? && s1.apps[cb.parent].pendingPreamble == 0 {
      LaunchIgnoresQueue(w, s1, cb.parent, s1.apps[cb.parent].errorPreamble, a, q);
    }
  }

  lemma {:induction false} LaunchIgnoresQueue(w: World, s: State, c: nat, error: int, a: nat, q: seq<Callback>)
    requires Valid(w, s) && c < |w.apps| && a < |w.apps| && w.rank[a] < w.rank[c]
    requires LinkedQueue(w, a, q)
    ensures Launch(w, SetQueue(s, a, q), c, error) == SetQueue(Launch(w, s, c, error), a, q)
    decreases |w.apps| - w.rank[c], 2, 0
  {
    var s1, s1' := Launching(s, c, error), Launching(SetQueue(s, a, q), c, error);
    assert s1' == SetQueue(s1, a, q) by {
      assert s1'.apps == SetQueue(s1, a, q).apps;
    }
    if error != 0 {
      ClearIgnoresQueue(w, s1, c, error, a, q);
    } else if w.spawn(s.nextId) != 0 {
      assert NoProcess(s1', c) == SetQueue(NoProcess(s1, c), a, q) by {
        assert NoProcess(s1', c).apps == SetQueue(NoProcess(s1, c), a, q).apps;
      }
      ClearIgnoresQueue(w, NoProcess(s1, c), c, w.spawn(s.nextId), a, q);
    }
  }

  lemma {:induction false} ClearIgnoresQueue(w: World, s: State, c: nat, error: int, a: nat, q: seq<Callback>)
    requires Valid(w, s) && c < |w.apps| && a < |w.apps| && w.rank[a] < w.rank[c]
    requires LinkedQueue(w, a, q)
    ensures Clear(w, SetQueue(s, a, q), c, error) == SetQueue(Clear(w, s, c, error), a, q)
    decreases |w.apps| - w.rank[c], 1, |s.apps[c].callbacks|
  {
    if s.apps[c].callbacks != [] {
      var cb, s1 := s.apps[c].callbacks[0], Pop(s, c);
      assert Pop(SetQueue(s, a, q), c).apps == SetQueue(s1, a, q).apps;
      AnswerIgnoresQueue(w, s1, c, cb, error, a, q);
      ClearIgnoresQueue(w, Answer(w, s1, c, cb, error), c, error, a, q);
    }
  }

  // One turn of the loop in ClearCallbacks, seen with the waiters still to be called queued.
  lemma {:induction false} ClearTurn(w: World, s: State, a: nat, i: nat, error: int)
    requires Valid(w, s) && a < |w.apps| && i < |s.apps[a].callbacks|
    ensures var q := s.apps[a].callbacks;
      var r := Answer(w, s, a, q[i], error);
      Clear(w, SetQueue(s, a, q[i..]), a, error) == Clear(w, SetQueue(r, a, q[i + 1..]), a, error)
  {
    var q := s.apps[a].callbacks;
    var v := SetQueue(s, a, q[i..]);
    assert Pop(v, a).apps == SetQueue(s, a, q[i + 1..]).apps;
    AnswerIgnoresQueue(w, s, a, q[i], error, a, q[i + 1..]);
  }

  // ---------------------------------------------------------------- the object

  class ProcessManager {
    const w: World
    var apps: seq<App>
    var checks: map<nat, Check>
    var processes: map<nat, nat>
    var timers: map<nat, nat>
    var nextId: nat
    var now: nat
    ghost var history: History

    ghost function St(): State
      reads this
    {
      State(apps, checks, processes, timers, nextId, now, history)
    }

    constructor (w: World)
      requires w.Acyclic()
      ensures this.w == w && St() == Initial(w)
    {
      this.w := w;
      apps := Initial(w).apps;
      checks, processes, timers, nextId, now, history := map[], map[], map[], 0, 0, Empty;
    }

    method Require(a: nat, cb: Callback)
      requires Valid(w, St()) && a < |w.apps| && Linked(w, a, cb)
      modifies this
      ensures St() == ProcessSteps.Require(w, old(St()), a, cb)
      decreases w.rank[a], 6, 0
    {
      history := Then(history, Registered(a, cb, apps[a].callbacks != [] || Quiet(St(), a)));
      apps := apps[a := apps[a].(callbacks := apps[a].callbacks + [cb])];
      assert St() == Push(old(St()), a, cb);
      if |apps[a].callbacks| > 1 {
        return;
      }
      Check(a, ForRequire);
    }

    method Check(a: nat, use: Use)
      requires Valid(w, St()) && a < |w.apps|
      modifies this
      ensures St() == match use
                case ForRequire => CheckForRequire(w, old(St()), a)
                case ForTimer(t) => CheckForTimer(w, old(St()), a, t)
      decreases w.rank[a], 5, 0
    {
      if !w.apps[a].checker {
        Tell(a, use, 0);
        return;
      }
      var h := nextId;
      nextId := nextId + 1;
      checks := checks[h := ProcessState.Check(a, use)];
      assert St() == NewCheck(old(St()), a, use);
      var error := w.spawn(h);
      if error != 0 {
        history := Then(history, CheckerFailed(a));
        assert St() == NewCheck(old(St()), a, use).Log(CheckerFailed(a)) && Valid(w, St());
        Tell(a, use, error);
      }
    }

    // The outcome of a check, told to whoever asked for it.
    method Tell(a: nat, use: Use, error: int)
      requires Valid(w, St()) && a < |w.apps|
      modifies this
      ensures St() == match use
                case ForRequire => Checked(w, old(St()), a, error)
                case ForTimer(t) => TimerChecked(w, old(St()), a, t, error)
      decreases w.rank[a], 4, 0
    {
      match use
      case ForRequire =>
        if error == 0 {
          if w.apps[a].checker || apps[a].process.Some? {
            ClearCallbacks(a, 0);
          } else {
            apps := apps[a := apps[a].(requireStartTime := now)];
            Start(a);
          }
        } else {
          if apps[a].process.Some? {
            history := Then(history, Killed(a, apps[a].process.value));
            apps := apps[a := apps[a].(restart := true)];
          } else {
            apps := apps[a := apps[a].(requireStartTime := now)];
            Start(a);
          }
        }
      case ForTimer(t) =>
        var limit := w.apps[a].maxStartTime;
        var timeout := limit > 0 && now - apps[a].requireStartTime > limit;
        if error == 0 || error == -ENOENT || timeout {
          timers := timers - {t};
          apps := apps[a := apps[a].(checkerTimer := None)];
          ClearCallbacks(a, error);
        }
        apps := apps[a := apps[a].(checking := false)];
    }

    // Every waiter of `a` is called with `error`, then the vector of waiters is cleared.
    method ClearCallbacks(a: nat, error: int)
      requires Valid(w, St()) && a < |w.apps|
      modifies this
      ensures St() == Clear(w, old(St()), a, error)
      decreases |w.apps| - w.rank[a], 1, 0
    {
      ghost var start := St();
      ghost var queue := apps[a].callbacks;
      assert SetQueue(start, a, queue[0..]).apps == start.apps;
      var i := 0;
      while i < |apps[a].callbacks|
        invariant Valid(w, St()) && i <= |queue| && apps[a].callbacks == queue
        invariant Clear(w, SetQueue(St(), a, queue[i..]), a, error) == Clear(w, start, a, error)
      {
        ghost var before := St();
        Call(a, apps[a].callbacks[i], error);
        ClearTurn(w, before, a, i, error);
        i := i + 1;
      }
      apps := apps[a := apps[a].(callbacks := [])];
    }

    // Call one waiter of `a`.
    method Call(a: nat, cb: Callback, error: int)
      requires Valid(w, St()) && a < |w.apps| && Linked(w, a, cb)
      modifies this
      ensures St() == Answer(w, old(St()), a, cb, error)
      decreases |w.apps| - w.rank[a], 0, 0
    {
      history := Then(history, Invoked(a, cb, apps[a].process, error));
      match cb
      case User(_) =>
      case Preamble(b, _) =>
        apps := apps[b := apps[b].(pendingPreamble := apps[b].pendingPreamble - 1)];
        if error != 0 {
          apps := apps[b := apps[b].(errorPreamble := apps[b].errorPreamble + 1)];
        }
        assert St() == Told(old(St()), a, cb, error) by {
          assert apps == Told(old(St()), a, cb, error).apps;
        }
        if apps[b].pendingPreamble == 0 {
          Continue(b, apps[b].errorPreamble);
        }
    }

    // What Start does once the preambles of `a` have answered.
    method Continue(a: nat, error: int)
      requires Valid(w, St()) && a < |w.apps|
      modifies this
      ensures St() == Launch(w, old(St()), a, error)
      decreases |w.apps| - w.rank[a], 2, 0
    {
      if error != 0 {
        history := Then(history, Refused(a, error));
        ClearCallbacks(a, error);
        return;
      }
      var p, t := nextId, nextId + 1;
      nextId := nextId + 2;
      apps := apps[a := apps[a].(process := Some(p), checkerTimer := Some(t), checking := false)];
      timers := timers[t := a];
      processes := processes[p := a];
      history := Then(history, Spawned(a, p));
      assert St() == Launching(old(St()), a, 0);
      var failed := w.spawn(p);
      if failed != 0 {
        apps := apps[a := apps[a].(process := None)];
        ClearCallbacks(a, failed);
      }
    }

    method Start(a: nat)
      requires Valid(w, St()) && a < |w.apps|
      modifies this
      ensures St() == ProcessSteps.Start(w, old(St()), a)
      decreases w.rank[a], 3, 0
    {
      CheckPreamble(a);
    }

    method CheckPreamble(a: nat)
      requires Valid(w, St()) && a < |w.apps|
      modifies this
      ensures St() == ProcessSteps.Start(w, old(St()), a)
      decreases w.rank[a], 2, 0
    {
      var preamble := w.apps[a].preamble;
      history := Then(history, Started(a, apps[a].pendingPreamble));
      apps := apps[a := apps[a].(errorPreamble := 0, pendingPreamble := |preamble|)];
      assert St() == Begin(w, old(St()), a);
      if |preamble| == 0 {
        Continue(a, 0);
        return;
      }
      ghost var begun := St();
      for i := 0 to |preamble|
        invariant Valid(w, St())
        invariant RequirePreambles(w, St(), a, i) == RequirePreambles(w, begun, a, 0)
      {
        Require(preamble[i], Preamble(a, i));
      }
    }

    // ---------------------------------------------------------------- events

    method OnUserRequires(a: nat, id: nat)
      requires Valid(w, St()) && a < |w.apps|
      modifies this
      ensures St() == Step(w, old(St()), UserRequires(a, id))
    {
      history := Then(history, Required(a));
      Require(a, User(id));
    }

    method OnCheckerExit(h: nat, status: int, signal: int)
      requires Valid(w, St()) && h in checks
      modifies this
      ensures St() == Step(w, old(St()), CheckerExits(h, status, signal))
    {
      var check := checks[h];
      history := Then(history, CheckExited(check.app, status, signal));
      checks := checks - {h};
      Tell(check.app, check.use, Int32(Outcome(status, signal)));
    }

    method OnProcessExit(p: nat, status: int, signal: int)
      requires Valid(w, St()) && p in processes
      modifies this
      ensures St() == Step(w, old(St()), ProcessExits(p, status, signal))
    {
      var a := processes[p];
      history := Then(history, ProcessExited(a, p, status, signal, apps[a].restart));
      processes := processes - {p};
      var outcome := Outcome(status, signal);
      apps := apps[a := apps[a].(process := None)];
      assert St() == ExitSeen(old(St()), p, status, signal);
      if outcome != 0 {
        if apps[a].restart {
          apps := apps[a := apps[a].(restart := false)];
          Start(a);
        } else if !w.apps[a].checker {
          ClearCallbacks(a, Int32(outcome));
        }
      }
    }

    method OnTick(t: nat)
      requires Valid(w, St()) && t in timers
      modifies this
      ensures St() == Step(w, old(St()), TimerTicks(t))
    {
      var a := timers[t];
      history := Then(history, Ticked(a));
      if |apps[a].callbacks| == 0 {
        timers := timers - {t};
      } else if !apps[a].checking {
        Check(a, ForTimer(t));
        apps := apps[a := apps[a].(checking := true)];
      }
    }

    method OnTime(ms: nat)
      requires Valid(w, St())
      modifies this`now, this`history
      ensures St() == Step(w, old(St()), TimePasses(ms))
    {
      history := Then(history, Passed(ms));
      now := now + ms;
    }
  }
}
