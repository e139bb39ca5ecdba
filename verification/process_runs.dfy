/** What the process manager promises over every run: any sequence of calls, checker and
    process exits, timer ticks and time, from the initial state on. */
module ProcessRuns {
  import opened Common
  import opened ProcessState
  import opened ProcessSteps
  import opened ProcessBooks
  import opened ProcessCascade
  import opened ProcessDemand
  import opened ProcessProgress
  import opened ProcessCalm

  // The state after the events es, if each of them was possible when it came.
  ghost function Run(w: World, es: seq<Event>): (r: Option<State>)
    requires w.Acyclic()
    ensures r.Some? ==> Valid(w, r.value)
    decreases |es|
  {
    if es == [] then Some(Initial(w))
    else
      var n := |es| - 1;
      match Run(w, es[..n])
      case None => None
      case Some(s) => if Enabled(w, s, es[n]) then Some(Step(w, s, es[n])) else None
  }

  lemma {:induction false} RunKeeps(w: World, es: seq<Event>)
    requires w.Acyclic() && Run(w, es).Some?
    ensures var s := Run(w, es).value; Ledger(w, s) && Peace(w, s) && Tracked(s)
    decreases |es|
  {
    if es == [] {
      InitialLedger(w);
      InitialCalm(w);
    } else {
      var n := |es| - 1;
      RunKeeps(w, es[..n]);
      var s := Run(w, es[..n]).value;
      StepLedger(w, s, es[n]);
      StepCalm(w, s, es[n]);
      StepServes(w, s, es[n]);
    }
  }

  // `e` was recorded when the history was `past`.
  predicate Occurs(h: History, past: History, e: Entry) {
    h.Then? && ((h.past == past && h.entry == e) || Occurs(h.past, past, e))
  }

  lemma {:induction false} OccursJustified(w: World, h: History, past: History, e: Entry)
    requires JustifiedHistory(w, h) && Occurs(h, past, e)
    ensures Justified(w, past, e)
  {
    if !(h.past == past && h.entry == e) { OccursJustified(w, h.past, past, e); }
  }

  // ---------------------------------------------------------------- callbacks

  // Every callback given to Require for `a` is still queued or was invoked exactly once, in
  // the order of registration.
  lemma {:induction false} CallbacksConserved(w: World, es: seq<Event>, a: nat)
    requires w.Acyclic() && Run(w, es).Some? && a < |w.apps|
    ensures var s := Run(w, es).value;
      RegisteredOn(s.history, a) == InvokedOn(s.history, a) + s.apps[a].callbacks
  {
    RunKeeps(w, es);
    assert Balanced(Run(w, es).value, a);
  }

  // An app with a checker reports success only while the exit of a checker of that app with
  // a zero outcome is being handled.
  lemma {:induction false} SuccessIsSound(w: World, es: seq<Event>, past: History, a: nat, cb: Callback, p: Option<nat>)
    requires w.Acyclic() && Run(w, es).Some? && a < |w.apps| && w.apps[a].checker
    requires Occurs(Run(w, es).value.history, past, Invoked(a, cb, p, 0))
    ensures CheckerSucceeded(past, a)
  {
    RunKeeps(w, es);
    OccursJustified(w, Run(w, es).value.history, past, Invoked(a, cb, p, 0));
  }

  // For outcomes that fit an int, a zero outcome is status 0 and no signal.
  lemma {:induction false} ZeroOutcome(status: int, signal: int)
    requires -0x8000_0000 <= Outcome(status, signal) < 0x8000_0000
    ensures Int32(Outcome(status, signal)) == 0 <==> status == 0 && signal == 0
  {
  }

  // Clearing the queue of `a` tells every waiter the same, in order, and adds no other answer
  // for `a`.
  lemma {:induction false} ClearTellsAll(w: World, s: State, a: nat, error: int)
    requires Valid(w, s) && a < |w.apps|
    ensures var r := Clear(w, s, a, error);
      Answers(r.history, a) == Answers(s.history, a) + Each(s.apps[a].callbacks, error)
    decreases |s.apps[a].callbacks|
  {
    if s.apps[a].callbacks != [] {
      var q, s1 := s.apps[a].callbacks, Pop(s, a);
      AnswerIsOnce(w, s1, a, q[0], error, a);
      ClearTellsAll(w, Answer(w, s1, a, q[0], error), a, error);
      assert [(q[0], error)] + Each(q[1..], error) == Each(q, error);
    }
  }

  function Answers(h: History, a: nat): seq<(Callback, int)> {
    match h
    case Empty => []
    case Then(past, e) =>
      Answers(past, a) + if e.Invoked? && e.app == a then [(e.callback, e.error)] else []
  }

  function Each(q: seq<Callback>, error: int): seq<(Callback, int)> {
    if q == [] then [] else [(q[0], error)] + Each(q[1..], error)
  }

  // Answering one waiter of `a` answers nobody else ranked up to `a`.
  lemma {:induction false} AnswerIsOnce(w: World, s: State, a: nat, cb: Callback, error: int, b: nat)
    requires Valid(w, s) && a < |w.apps| && Linked(w, a, cb) && b < |w.apps| && w.rank[b] <= w.rank[a]
    ensures Answers(Answer(w, s, a, cb, error).history, b)
         == Answers(s.history, b) + if a == b then [(cb, error)] else []
    decreases |w.apps| - w.rank[a], 0, 0
  {
    var s1 := Told(s, a, cb, error);
    if cb.Preamble? && s1.apps[cb.parent].pendingPreamble == 0 {
      LaunchAbove(w, s1, cb.parent, s1.apps[cb.parent].errorPreamble, b);
    }
  }

  lemma {:induction false} LaunchAbove(w: World, s: State, a: nat, error: int, b: nat)
    requires Valid(w, s) && a < |w.apps| && b < |w.apps| && w.rank[b] < w.rank[a]
    ensures Answers(Launch(w, s, a, error).history, b) == Answers(s.history, b)
    decreases |w.apps| - w.rank[a], 2, 0
  {
    var s1 := Launching(s, a, error);
    if error != 0 {
      ClearAbove(w, s1, a, error, b);
    } else if w.spawn(s.nextId) != 0 {
      ClearAbove(w, NoProcess(s1, a), a, w.spawn(s.nextId), b);
    }
  }

  lemma {:induction false} ClearAbove(w: World, s: State, a: nat, error: int, b: nat)
    requires Valid(w, s) && a < |w.apps| && b < |w.apps| && w.rank[b] < w.rank[a]
    ensures Answers(Clear(w, s, a, error).history, b) == Answers(s.history, b)
    decreases |w.apps| - w.rank[a], 1, |s.apps[a].callbacks|
  {
    if s.apps[a].callbacks != [] {
      AnswerIsOnce(w, Pop(s, a), a, s.apps[a].callbacks[0], error, b);
      ClearAbove(w, Answer(w, Pop(s, a), a, s.apps[a].callbacks[0], error), a, error, b);
    }
  }

  // ---------------------------------------------------------------- preamble gating

  // The continuation of a start runs exactly once, at the answer that completes the count.
  lemma {:induction false} LaunchedOncePerStart(w: World, es: seq<Event>, a: nat)
    requires w.Acyclic() && Run(w, es).Some? && a < |w.apps|
    ensures var s := Run(w, es).value; var n := |w.apps[a].preamble|;
      HasStarted(s.history, a) ==>
        && s.apps[a].pendingPreamble == n - |Answered(s.history, a)|
        && Launches(s.history, a) == if |Answered(s.history, a)| >= n then 1 else 0
  {
    RunKeeps(w, es);
    assert Counted(w, Run(w, es).value, a);
  }

  // A process is created only when as many answers as there are preambles have come in since
  // the start, all of them 0; in an undisturbed run, one from each preamble.
  lemma {:induction false} SpawnedAfterPreambles(w: World, es: seq<Event>, past: History, a: nat, p: nat)
    requires w.Acyclic() && Run(w, es).Some? && a < |w.apps|
    requires Occurs(Run(w, es).value.history, past, Spawned(a, p))
    ensures var n := |w.apps[a].preamble|;
      && |Answered(past, a)| == n && Failures(past, a) == 0 && Launches(past, a) == 0
      && (Undisturbed(past) ==> Answered(past, a) == Slots(n))
  {
    RunKeeps(w, es);
    OccursJustified(w, Run(w, es).value.history, past, Spawned(a, p));
  }

  // Otherwise the waiters are refused with the number of preambles that failed.
  lemma {:induction false} RefusedWithCount(w: World, es: seq<Event>, past: History, a: nat, error: int)
    requires w.Acyclic() && Run(w, es).Some? && a < |w.apps|
    requires Occurs(Run(w, es).value.history, past, Refused(a, error))
    ensures var n := |w.apps[a].preamble|;
      && |Answered(past, a)| == n && Failures(past, a) == error != 0 && Launches(past, a) == 0
      && (Undisturbed(past) ==> Answered(past, a) == Slots(n))
  {
    RunKeeps(w, es);
    OccursJustified(w, Run(w, es).value.history, past, Refused(a, error));
  }

  // pending_preamble is the number of this app's continuations still queued.
  ghost predicate Gated(s: State, a: nat)
    requires a < |s.apps|
  {
    s.apps[a].pendingPreamble == |Queued(s.apps, |s.apps|, a)|
  }

  lemma {:induction false} PendingIsQueued(w: World, es: seq<Event>, a: nat)
    requires w.Acyclic() && Run(w, es).Some? && a < |w.apps|
    requires Undisturbed(Run(w, es).value.history)
    ensures Gated(Run(w, es).value, a)
  {
    RunKeeps(w, es);
    var s := Run(w, es).value;
    assert Settled(w, s, a) && Counted(w, s, a);
    SettledGate(w, s, a);
  }

  lemma {:induction false} SettledGate(w: World, s: State, a: nat)
    requires |s.apps| == |w.apps| && a < |w.apps| && Settled(w, s, a) && Counted(w, s, a)
    requires Undisturbed(s.history)
    ensures Gated(s, a)
  {
    var n := |w.apps[a].preamble|;
    SlotsSize(n);
    assert |Accounted(s, a)| == |Answered(s.history, a)| + |Queued(s.apps, |s.apps|, a)|;
  }

  // Never less, disturbed or not: an app that waits has a continuation queued.
  lemma {:induction false} PendingAtMostQueued(w: World, es: seq<Event>, a: nat)
    requires w.Acyclic() && Run(w, es).Some? && a < |w.apps|
    ensures var s := Run(w, es).value;
      s.apps[a].pendingPreamble <= |Queued(s.apps, |s.apps|, a)|
  {
    RunKeeps(w, es);
    AtMostQueued(w, Run(w, es).value, a);
  }

  lemma {:induction false} AtMostQueued(w: World, s: State, a: nat)
    requires Valid(w, s) && a < |w.apps| && Books(w, s) && SettledUpTo(w, s, a)
    ensures s.apps[a].pendingPreamble <= |Queued(s.apps, |s.apps|, a)|
  {
    var n := |w.apps[a].preamble|;
    assert Settled(w, s, a) && Counted(w, s, a);
    SlotsSize(n);
    assert |Accounted(s, a)| == |Answered(s.history, a)| + |Queued(s.apps, |s.apps|, a)|;
    if HasStarted(s.history, a) {
      assert Accounted(s, a) == Slots(n) + (Accounted(s, a) - Slots(n));
    }
  }

  // Starting an app, from an event or from the loop over another's preambles, keeps the count
  // right if and only if the app was not already waiting.
  lemma {:induction false} StartGatesExactly(w: World, s: State, a: nat)
    requires Valid(w, s) && a < |w.apps| && Books(w, s) && SettledUpTo(w, s, a) && AllFit(w, s)
    requires w.apps[a].preamble != []
    ensures Gated(Start(w, s, a), a) <==> Queued(s.apps, |s.apps|, a) == multiset{}
    ensures Gated(s, a) ==> (Gated(Start(w, s, a), a) <==> s.apps[a].pendingPreamble <= 0)
  {
    var n, r := |w.apps[a].preamble|, Start(w, s, a);
    StartAccounts(w, s, a);
    SlotsSize(n);
    assert |Accounted(r, a)| == |Queued(s.apps, |s.apps|, a)| + n;
    assert |Accounted(r, a)| == |Answered(r.history, a)| + |Queued(r.apps, |r.apps|, a)|;
  }

  // A start accounts for every preamble once, besides what was queued before.
  lemma {:induction false} StartAccounts(w: World, s: State, a: nat)
    requires Valid(w, s) && a < |w.apps| && Books(w, s) && SettledUpTo(w, s, a) && AllFit(w, s)
    requires w.apps[a].preamble != []
    ensures var r := Start(w, s, a);
      && HasStarted(r.history, a) && Counted(w, r, a)
      && Accounted(r, a) == Queued(s.apps, |s.apps|, a) + Slots(|w.apps[a].preamble|)
  {
    var s1 := Begin(w, s, a);
    BeginAll(w, s, a);
    BeginSelf(w, s, a);
    PreamblesBooks(w, s1, a, 0, Accounted(s1, a));
  }

  // In an orderly run no app is started while it waits, so the count is always right.
  lemma {:induction false} OrderlyRunsAreGated(w: World, es: seq<Event>, a: nat)
    requires w.Acyclic() && Run(w, es).Some? && a < |w.apps|
    requires Orderly(Run(w, es).value.history)
    ensures Undisturbed(Run(w, es).value.history) && Gated(Run(w, es).value, a)
  {
    RunKeeps(w, es);
    PendingIsQueued(w, es, a);
  }

  // ---------------------------------------------------------------- progress

  ghost predicate AlwaysServed(w: World, es: seq<Event>)
    requires w.Acyclic() && Run(w, es).Some?
    decreases |es|
  {
    AllServed(Run(w, es).value) && (es != [] ==> AlwaysServed(w, es[..|es| - 1]))
  }

  ghost predicate NoRestartLost(w: World, es: seq<Event>)
    requires w.Acyclic() && Run(w, es).Some?
    decreases |es|
  {
    es != [] ==>
      var n := |es| - 1;
      !LosesRestart(Run(w, es[..n]).value, es[n]) && NoRestartLost(w, es[..n])
  }

  // No waiter is ever stuck, if and only if no killed process that waiters rely on reports a
  // clean exit.
  lemma {:induction false} NoStuckWaiter(w: World, es: seq<Event>)
    requires w.Acyclic() && Run(w, es).Some?
    ensures AlwaysServed(w, es) <==> NoRestartLost(w, es)
    decreases |es|
  {
    if es != [] {
      var n := |es| - 1;
      RunKeeps(w, es[..n]);
      NoStuckWaiter(w, es[..n]);
      StepServes(w, Run(w, es[..n]).value, es[n]);
    }
  }

  // `a` waits, through the continuations queued on its preambles, on b.
  ghost predicate WaitsOn(w: World, s: State, a: nat, b: nat)
    requires Valid(w, s) && a < |w.apps|
    decreases w.rank[a]
  {
    || a == b
    || exists i | 0 <= i < |w.apps[a].preamble| ::
         Preamble(a, i) in s.apps[w.apps[a].preamble[i]].callbacks && WaitsOn(w, s, w.apps[a].preamble[i], b)
  }

  lemma {:induction false} FindQueued(w: World, s: State, n: nat, a: nat) returns (p: nat, i: nat)
    requires Valid(w, s) && n <= |s.apps| && a < |w.apps| && |Queued(s.apps, n, a)| > 0
    ensures i < |w.apps[a].preamble| && p == w.apps[a].preamble[i]
    ensures Preamble(a, i) in s.apps[p].callbacks
  {
    p := FindQueue(s.apps, n, a);
    i := FindSlot(s.apps[p].callbacks, a);
    SlotIsLinked(w, s, p, a, i);
  }

  lemma {:induction false} FindQueue(apps: seq<App>, n: nat, a: nat) returns (p: nat)
    requires n <= |apps| && |Queued(apps, n, a)| > 0
    ensures p < n && |SlotsIn(apps[p].callbacks, a)| > 0
  {
    if |SlotsIn(apps[n - 1].callbacks, a)| > 0 {
      p := n - 1;
    } else {
      p := FindQueue(apps, n - 1, a);
    }
  }

  lemma {:induction false} SlotIsLinked(w: World, s: State, p: nat, a: nat, i: nat)
    requires Valid(w, s) && p < |s.apps| && Preamble(a, i) in s.apps[p].callbacks
    ensures a < |w.apps| && i < |w.apps[a].preamble| && p == w.apps[a].preamble[i]
  {
    var q := s.apps[p].callbacks;
    var k :| 0 <= k < |q| && q[k] == Preamble(a, i);
    assert Linked(w, p, q[k]);
  }

  lemma {:induction false} FindSlot(q: seq<Callback>, a: nat) returns (i: nat)
    requires |SlotsIn(q, a)| > 0
    ensures Preamble(a, i) in q
  {
    if q[0].Preamble? && q[0].parent == a {
      i := q[0].slot;
    } else {
      i := FindSlot(q[1..], a);
    }
  }
}
