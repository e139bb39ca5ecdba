/** Why the count of awaited preambles stays wrong once it is: an app that is started while it
    waits leaves a continuation queued that nothing answers before the event is over. So over
    a run the counts are right after every event if and only if no app is started while it
    waits. */
module ProcessTangles {
  import opened Common
  import opened ProcessState
  import opened ProcessSteps
  import opened ProcessBooks
  import opened ProcessCascade
  import opened ProcessDemand
  import opened ProcessRuns

  // ---------------------------------------------------------------- queues that are left alone

  // A set of apps ranked below `top` that are being started, each from the one above it.
  ghost predicate Within(w: World, open: set<nat>, top: nat) {
    |w.rank| == |w.apps| && forall x :: x in open ==> x < |w.apps| && w.rank[x] < top
  }

  // An answer to cb goes on to an open app or to one ranked at the top or above.
  ghost predicate Upward(w: World, cb: Callback, open: set<nat>, top: nat) {
    cb.Preamble? ==> cb.parent < |w.apps| == |w.rank| && (cb.parent in open || w.rank[cb.parent] >= top)
  }

  ghost predicate Closed(w: World, s: State, open: set<nat>, top: nat) {
    forall x, k :: x in open && 0 <= x < |s.apps| && 0 <= k < |s.apps[x].callbacks| ==>
      Upward(w, s.apps[x].callbacks[k], open, top)
  }

  // Below the top, only the queues of open apps change.
  ghost predicate Apart(w: World, s: State, r: State, open: set<nat>, top: nat)
    requires |s.apps| == |r.apps| == |w.apps| == |w.rank|
  {
    forall q :: 0 <= q < |w.apps| && q !in open && w.rank[q] < top ==> r.apps[q].callbacks == s.apps[q].callbacks
  }

  // Below the top, what is queued on an app that is not open stays queued.
  ghost predicate Holds(w: World, s: State, r: State, open: set<nat>, top: nat)
    requires |s.apps| == |r.apps| == |w.apps| == |w.rank|
  {
    forall q :: 0 <= q < |w.apps| && q !in open && w.rank[q] < top && s.apps[q].callbacks != [] ==>
      s.apps[q].callbacks <= r.apps[q].callbacks
  }

  lemma {:induction false} ClearApart(w: World, s: State, a: nat, error: int, open: set<nat>, top: nat)
    requires Valid(w, s) && a in open && Within(w, open, top) && Closed(w, s, open, top)
    ensures var r := Clear(w, s, a, error); Apart(w, s, r, open, top) && Closed(w, r, open, top)
    decreases |w.apps| - w.rank[a], 1, |s.apps[a].callbacks|
  {
    if s.apps[a].callbacks != [] {
      var cb, s1 := s.apps[a].callbacks[0], Pop(s, a);
      assert Closed(w, s1, open, top);
      AnswerApart(w, s1, a, cb, error, open, top);
      ClearApart(w, Answer(w, s1, a, cb, error), a, error, open, top);
    }
  }

  lemma {:induction false} AnswerApart(w: World, s: State, a: nat, cb: Callback, error: int, open: set<nat>, top: nat)
    requires Valid(w, s) && a < |w.apps| && Linked(w, a, cb)
    requires Within(w, open, top) && Closed(w, s, open, top) && Upward(w, cb, open, top)
    ensures var r := Answer(w, s, a, cb, error); Apart(w, s, r, open, top) && Closed(w, r, open, top)
    decreases |w.apps| - w.rank[a], 0, 0
  {
    var s1 := Told(s, a, cb, error);
    assert Closed(w, s1, open, top);
    if cb.Preamble? && s1.apps[cb.parent].pendingPreamble == 0 {
      LaunchApart(w, s1, cb.parent, s1.apps[cb.parent].errorPreamble, open, top);
    }
  }

  lemma {:induction false} LaunchApart(w: World, s: State, a: nat, error: int, open: set<nat>, top: nat)
    requires Valid(w, s) && a < |w.apps| && (a in open || w.rank[a] >= top)
    requires Within(w, open, top) && Closed(w, s, open, top)
    ensures var r := Launch(w, s, a, error); Apart(w, s, r, open, top) && Closed(w, r, open, top)
    decreases |w.apps| - w.rank[a], 2, 0
  {
    var r := Launch(w, s, a, error);
    if a in open {
      var s1 := Launching(s, a, error);
      SameQueues(w, s, s1, open, top);
      SameQueues(w, s, NoProcess(s1, a), open, top);
      if error != 0 {
        ClearApart(w, s1, a, error, open, top);
      } else if w.spawn(s.nextId) != 0 {
        ClearApart(w, NoProcess(s1, a), a, w.spawn(s.nextId), open, top);
      }
    } else {
      AboveIsApart(w, s, r, a, open, top);
    }
  }

  lemma {:induction false} SameQueues(w: World, s: State, r: State, open: set<nat>, top: nat)
    requires |s.apps| == |r.apps| && Closed(w, s, open, top)
    requires forall q :: 0 <= q < |s.apps| ==> r.apps[q].callbacks == s.apps[q].callbacks
    ensures Closed(w, r, open, top)
  {
  }

  lemma {:induction false} AboveIsApart(w: World, s: State, r: State, a: nat, open: set<nat>, top: nat)
    requires Valid(w, s) && Valid(w, r) && a < |w.apps| && w.rank[a] >= top && OnlyAbove(w, s, r, a)
    requires Within(w, open, top) && Closed(w, s, open, top)
    ensures Apart(w, s, r, open, top) && Closed(w, r, open, top)
  {
    assert forall x :: x in open ==> r.apps[x] == s.apps[x];
  }

  // The lowest of the open apps.
  ghost predicate Lowest(w: World, a: nat, open: set<nat>)
    requires a < |w.apps| == |w.rank|
  {
    a in open && forall x :: x in open && x < |w.rank| && x != a ==> w.rank[x] > w.rank[a]
  }

  ghost predicate Below(w: World, p: nat, open: set<nat>)
    requires p < |w.apps| == |w.rank|
  {
    forall x :: x in open && x < |w.rank| ==> w.rank[x] > w.rank[p]
  }

  // Opening an app with a single waiter, and closing it again.
  lemma {:induction false} Opened(w: World, s: State, p: nat, cb: Callback, open: set<nat>, top: nat)
    requires Valid(w, s) && p < |w.apps| && Linked(w, p, cb) && w.rank[p] < top && s.apps[p].callbacks == []
    requires Below(w, p, open) && Within(w, open, top) && Closed(w, s, open, top) && Upward(w, cb, open, top)
    ensures var s1 := Push(s, p, cb);
      Within(w, open + {p}, top) && Lowest(w, p, open + {p}) && Closed(w, s1, open + {p}, top)
  {
  }

  lemma {:induction false} Reclosed(w: World, s: State, p: nat, open: set<nat>, top: nat)
    requires Valid(w, s) && p < |w.apps| && Below(w, p, open) && Within(w, open, top)
    requires Closed(w, s, open + {p}, top)
    ensures Closed(w, s, open, top)
  {
    forall x, k | x in open && 0 <= x < |s.apps| && 0 <= k < |s.apps[x].callbacks|
      ensures Upward(w, s.apps[x].callbacks[k], open, top)
    {
      assert Linked(w, x, s.apps[x].callbacks[k]) && Upward(w, s.apps[x].callbacks[k], open + {p}, top);
    }
  }

  lemma {:induction false} RequireHolds(w: World, s: State, p: nat, cb: Callback, open: set<nat>, top: nat)
    requires Valid(w, s) && p < |w.apps| && Linked(w, p, cb) && w.rank[p] < top
    requires Below(w, p, open) && Within(w, open, top) && Closed(w, s, open, top) && Upward(w, cb, open, top)
    ensures var r := Require(w, s, p, cb); Holds(w, s, r, open, top) && Closed(w, r, open, top)
    decreases w.rank[p], 6, 0
  {
    var s1 := Push(s, p, cb);
    if s.apps[p].callbacks == [] {
      Opened(w, s, p, cb, open, top);
      CheckForRequireHolds(w, s1, p, open + {p}, top);
      Reclosed(w, Require(w, s, p, cb), p, open, top);
    }
  }

  lemma {:induction false} CheckForRequireHolds(w: World, s: State, a: nat, open: set<nat>, top: nat)
    requires Valid(w, s) && a < |w.apps| && Lowest(w, a, open) && Within(w, open, top) && Closed(w, s, open, top)
    ensures var r := CheckForRequire(w, s, a); Holds(w, s, r, open, top) && Closed(w, r, open, top)
    decreases w.rank[a], 5, 0
  {
    if !w.apps[a].checker {
      CheckedHolds(w, s, a, 0, open, top);
    } else if w.spawn(s.nextId) != 0 {
      CheckedHolds(w, NewCheck(s, a, ForRequire).Log(CheckerFailed(a)), a, w.spawn(s.nextId), open, top);
    }
  }

  lemma {:induction false} CheckedHolds(w: World, s: State, a: nat, error: int, open: set<nat>, top: nat)
    requires Valid(w, s) && a < |w.apps| && Lowest(w, a, open) && Within(w, open, top) && Closed(w, s, open, top)
    ensures var r := Checked(w, s, a, error); Holds(w, s, r, open, top) && Closed(w, r, open, top)
    decreases w.rank[a], 4, 0
  {
    var app := s.apps[a];
    if error == 0 && (w.apps[a].checker || app.process.Some?) {
      ClearApart(w, s, a, 0, open, top);
    } else if error == 0 || app.process.None? {
      var s1 := s.Put(a, app.(requireStartTime := s.now));
      assert Closed(w, s1, open, top);
      StartHolds(w, s1, a, open, top);
    }
  }

  lemma {:induction false} StartHolds(w: World, s: State, a: nat, open: set<nat>, top: nat)
    requires Valid(w, s) && a < |w.apps| && Lowest(w, a, open) && Within(w, open, top) && Closed(w, s, open, top)
    ensures var r := Start(w, s, a); Holds(w, s, r, open, top) && Closed(w, r, open, top)
    decreases w.rank[a], 3, 0
  {
    var s1 := Begin(w, s, a);
    assert Closed(w, s1, open, top);
    if w.apps[a].preamble == [] {
      LaunchApart(w, s1, a, 0, open, top);
    } else {
      PreamblesHold(w, s1, a, 0, open, top);
    }
  }

  lemma {:induction false} PreamblesHold(w: World, s: State, a: nat, i: nat, open: set<nat>, top: nat)
    requires Valid(w, s) && a < |w.apps| && i <= |w.apps[a].preamble|
    requires Lowest(w, a, open) && Within(w, open, top) && Closed(w, s, open, top)
    ensures var r := RequirePreambles(w, s, a, i); Holds(w, s, r, open, top) && Closed(w, r, open, top)
    decreases w.rank[a], 2, |w.apps[a].preamble| - i
  {
    if i < |w.apps[a].preamble| {
      var p, cb := w.apps[a].preamble[i], Preamble(a, i);
      RequireHolds(w, s, p, cb, open, top);
      PreamblesHold(w, Require(w, s, p, cb), a, i + 1, open, top);
    }
  }

  // ---------------------------------------------------------------- counts that stay wrong

  ghost predicate HasSlot(q: seq<Callback>, b: nat) {
    exists k :: 0 <= k < |q| && q[k].Preamble? && q[k].parent == b
  }

  // More is accounted for than b has preambles, and a continuation of b is queued on p.
  ghost predicate Tangled(w: World, s: State, b: nat, p: nat) {
    && b < |w.apps| && p < |s.apps|
    && HasSlot(s.apps[p].callbacks, b)
    && HasStarted(s.history, b)
    && |Accounted(s, b)| > |w.apps[b].preamble|
  }

  // A tangled app that is not held, with one below the top that is not open.
  ghost predicate Tells(w: World, s: State, b: nat, p: nat, open: set<nat>, held: set<nat>, top: nat) {
    Tangled(w, s, b, p) && b !in held && p !in open && p < |w.rank| && w.rank[p] < top
  }

  // Either no app was started while it waited, or a tangle shows that one was.
  ghost predicate Telling(w: World, s: State, open: set<nat>, held: set<nat>, top: nat) {
    Undisturbed(s.history) || exists b: nat, p: nat :: Tells(w, s, b, p, open, held, top)
  }

  lemma {:induction false} Retells(w: World, s: State, open: set<nat>, held: set<nat>, top: nat, fewer: set<nat>, others: set<nat>)
    requires Telling(w, s, open, held, top) && fewer <= open && others <= held
    ensures Telling(w, s, fewer, others, top)
  {
    if !Undisturbed(s.history) {
      var b: nat, p: nat :| Tells(w, s, b, p, open, held, top);
      assert Tells(w, s, b, p, fewer, others, top);
    }
  }

  // A change that keeps the accounts of all apps but those held, and what is queued.
  lemma {:induction false} StaysTelling(w: World, s: State, r: State, open: set<nat>, held: set<nat>, top: nat)
    requires |s.apps| == |r.apps| == |w.apps| == |w.rank|
    requires Telling(w, s, open, held, top) && Holds(w, s, r, open, top)
    requires Undisturbed(s.history) ==> Undisturbed(r.history)
    requires forall b :: 0 <= b < |w.apps| && b !in held ==> SameApp(s, r, b)
    ensures Telling(w, r, open, held, top)
  {
    if !Undisturbed(s.history) {
      var b: nat, p: nat :| Tells(w, s, b, p, open, held, top);
      assert SameApp(s, r, b);
      var k :| 0 <= k < |s.apps[p].callbacks| && s.apps[p].callbacks[k].Preamble? && s.apps[p].callbacks[k].parent == b;
      assert r.apps[p].callbacks[k] == s.apps[p].callbacks[k];
      assert Tells(w, r, b, p, open, held, top);
    }
  }

  lemma {:induction false} RemarkTells(w: World, s: State, r: State, open: set<nat>, held: set<nat>, top: nat)
    requires Valid(w, s) && |r.apps| == |w.apps| && Untouched(s, r) && Remarked(s, r)
    requires Telling(w, s, open, held, top)
    ensures Telling(w, r, open, held, top)
  {
    Unaffected(w, s, r);
    StaysTelling(w, s, r, open, held, top);
  }

  lemma {:induction false} RequireTells(w: World, s: State, p: nat, cb: Callback, open: set<nat>, top: nat)
    requires Valid(w, s) && p < |w.apps| && Linked(w, p, cb) && w.rank[p] < top
    requires Books(w, s) && SettledUpTo(w, s, p) && AllFitWith(w, s, cb)
    requires Below(w, p, open) && Within(w, open, top) && Closed(w, s, open, top)
    requires cb.Preamble? ==> cb.parent in open
    requires Telling(w, s, open, open, top)
    ensures Telling(w, Require(w, s, p, cb), open, open, top)
    decreases w.rank[p], 6, 0
  {
    var s1 := Push(s, p, cb);
    PushTells(w, s, p, cb, open, top);
    if s.apps[p].callbacks == [] {
      assert Books(w, s1) by { PushBooks(w, s, p, cb); }
      assert SettledUpTo(w, s1, p) && AllFit(w, s1) by { PushSettles(w, s, p, cb); }
      assert Within(w, open + {p}, top) && Lowest(w, p, open + {p}) && Closed(w, s1, open + {p}, top) by {
        Opened(w, s, p, cb, open, top);
      }
      OpenTells(w, s1, p, cb, open, top);
      CheckForRequireTells(w, s1, p, open + {p}, top);
      assert p !in open && (open + {p}) - {p} == open;
      Retells(w, CheckForRequire(w, s1, p), open + {p}, open, top, open, open);
    }
  }

  lemma {:induction false} PushTells(w: World, s: State, p: nat, cb: Callback, open: set<nat>, top: nat)
    requires Valid(w, s) && p < |w.apps| && Linked(w, p, cb) && (cb.Preamble? ==> cb.parent in open)
    requires Telling(w, s, open, open, top)
    ensures Telling(w, Push(s, p, cb), open, open, top)
  {
    var s1 := Push(s, p, cb);
    forall b | 0 <= b < |w.apps| && b !in open ensures SameApp(s, s1, b) {
      PushAccounts(s, p, cb, b);
      assert SlotOf(cb, b) == multiset{};
    }
    StaysTelling(w, s, s1, open, open, top);
  }

  // A tangle is not with an app that has just been opened, as nothing of it was queued there.
  lemma {:induction false} OpenTells(w: World, s: State, p: nat, cb: Callback, open: set<nat>, top: nat)
    requires p < |s.apps| && s.apps[p].callbacks == [cb] && (cb.Preamble? ==> cb.parent in open)
    requires Telling(w, s, open, open, top)
    ensures Telling(w, s, open + {p}, (open + {p}) - {p}, top)
  {
    if !Undisturbed(s.history) {
      var b: nat, q: nat :| Tells(w, s, b, q, open, open, top);
      assert Tells(w, s, b, q, open + {p}, (open + {p}) - {p}, top);
    }
  }

  lemma {:induction false} CheckForRequireTells(w: World, s: State, a: nat, open: set<nat>, top: nat)
    requires Valid(w, s) && a < |w.apps|
    requires Books(w, s) && SettledUpTo(w, s, a) && AllFit(w, s)
    requires Lowest(w, a, open) && Within(w, open, top) && Closed(w, s, open, top)
    requires Telling(w, s, open, open - {a}, top)
    ensures Telling(w, CheckForRequire(w, s, a), open, open - {a}, top)
    decreases w.rank[a], 5, 0
  {
    if !w.apps[a].checker {
      CheckedTells(w, s, a, 0, open, top);
    } else {
      var s1 := NewCheck(s, a, ForRequire);
      RemarkTells(w, s, s1, open, open - {a}, top);
      if w.spawn(s.nextId) != 0 {
        var s2 := s1.Log(CheckerFailed(a));
        RemarkGrows(w, s, s2, a);
        RemarkTells(w, s, s2, open, open - {a}, top);
        assert Closed(w, s2, open, top);
        CheckedTells(w, s2, a, w.spawn(s.nextId), open, top);
      }
    }
  }

  lemma {:induction false} CheckedTells(w: World, s: State, a: nat, error: int, open: set<nat>, top: nat)
    requires Valid(w, s) && a < |w.apps|
    requires Books(w, s) && SettledUpTo(w, s, a) && AllFit(w, s)
    requires error == 0 && w.apps[a].checker ==> CheckerSucceeded(s.history, a)
    requires Lowest(w, a, open) && Within(w, open, top) && Closed(w, s, open, top)
    requires Telling(w, s, open, open - {a}, top)
    ensures Telling(w, Checked(w, s, a, error), open, open - {a}, top)
    decreases w.rank[a], 4, 0
  {
    var app := s.apps[a];
    if error == 0 && (w.apps[a].checker || app.process.Some?) {
      ClearBooks(w, s, a, 0);
      ClearApart(w, s, a, 0, open, top);
      StaysTelling(w, s, Clear(w, s, a, 0), open, open - {a}, top);
    } else if error != 0 && app.process.Some? {
      RemarkTells(w, s, s.Put(a, app.(restart := true)).Log(Killed(a, app.process.value)), open, open - {a}, top);
    } else {
      var s1 := s.Put(a, app.(requireStartTime := s.now));
      RemarkGrows(w, s, s1, a);
      RemarkTells(w, s, s1, open, open - {a}, top);
      assert Closed(w, s1, open, top);
      StartTells(w, s1, a, open, top);
    }
  }

  lemma {:induction false} StartTells(w: World, s: State, a: nat, open: set<nat>, top: nat)
    requires Valid(w, s) && a < |w.apps|
    requires Books(w, s) && SettledUpTo(w, s, a) && AllFit(w, s)
    requires Lowest(w, a, open) && Within(w, open, top) && Closed(w, s, open, top)
    requires Telling(w, s, open, open - {a}, top)
    ensures Telling(w, Start(w, s, a), open, open - {a}, top)
    decreases w.rank[a], 3, 0
  {
    if |Queued(s.apps, |s.apps|, a)| > 0 {
      StartTangles(w, s, a, open, top);
    } else {
      StartFreshTells(w, s, a, open, top);
      Retells(w, Start(w, s, a), open, open, top, open, open - {a});
    }
  }

  lemma {:induction false} StartFreshTells(w: World, s: State, a: nat, open: set<nat>, top: nat)
    requires Valid(w, s) && a < |w.apps| && Queued(s.apps, |s.apps|, a) == multiset{}
    requires Books(w, s) && SettledUpTo(w, s, a) && AllFit(w, s)
    requires Lowest(w, a, open) && Within(w, open, top) && Closed(w, s, open, top)
    requires Telling(w, s, open, open - {a}, top)
    ensures Telling(w, Start(w, s, a), open, open, top)
    decreases w.rank[a], 2, |w.apps[a].preamble| + 1
  {
    var s1 := Begin(w, s, a);
    assert Telling(w, s1, open, open, top) by { BeginTells(w, s, a, open, top); }
    assert Closed(w, s1, open, top) by { SameQueues(w, s, s1, open, top); }
    if w.apps[a].preamble == [] {
      var r := Launch(w, s1, a, 0);
      assert SameAccounts(w, s1, r) by {
        BeginAll(w, s, a);
        LaunchBooks(w, s1, a, 0);
      }
      assert Apart(w, s1, r, open, top) by { LaunchApart(w, s1, a, 0, open, top); }
      StaysTelling(w, s1, r, open, open, top);
    } else {
      assert Books(w, s1) && Waiting(w, s1, a, 0, Accounted(s1, a)) by { BeginAll(w, s, a); }
      PreamblesTell(w, s1, a, 0, Accounted(s1, a), open, top);
    }
  }

  // An app that is started while continuations of it are queued is tangled when its start is
  // through: it accounts for those as well, and they are still queued.
  lemma {:induction false} StartTangles(w: World, s: State, a: nat, open: set<nat>, top: nat)
    requires Valid(w, s) && a < |w.apps|
    requires Books(w, s) && SettledUpTo(w, s, a) && AllFit(w, s)
    requires Lowest(w, a, open) && Within(w, open, top) && Closed(w, s, open, top)
    requires |Queued(s.apps, |s.apps|, a)| > 0
    ensures Telling(w, Start(w, s, a), open, open - {a}, top)
  {
    var r, n := Start(w, s, a), |w.apps[a].preamble|;
    var p, i := FindQueued(w, s, |s.apps|, a);
    StartAccounts(w, s, a);
    SlotsSize(n);
    assert |Accounted(r, a)| == |Queued(s.apps, |s.apps|, a)| + n;
    StartHolds(w, s, a, open, top);
    assert w.rank[p] < w.rank[a] && p !in open;
    assert Preamble(a, i) in r.apps[p].callbacks;
    assert Tells(w, r, a, p, open, open - {a}, top);
  }

  // One that is started with none queued was not waiting.
  lemma {:induction false} BeginTells(w: World, s: State, a: nat, open: set<nat>, top: nat)
    requires Valid(w, s) && a < |w.apps| && a in open
    requires Books(w, s) && SettledUpTo(w, s, a)
    requires Queued(s.apps, |s.apps|, a) == multiset{}
    requires Telling(w, s, open, open - {a}, top)
    ensures Telling(w, Begin(w, s, a), open, open, top)
  {
    if Undisturbed(s.history) {
      assert s.apps[a].pendingPreamble <= 0 by { AtMostQueued(w, s, a); }
    } else {
      var b: nat, p: nat :| Tells(w, s, b, p, open, open - {a}, top);
      BeginStillTells(w, s, a, b, p, open, top);
    }
  }

  lemma {:induction false} BeginStillTells(w: World, s: State, a: nat, b: nat, p: nat, open: set<nat>, top: nat)
    requires Valid(w, s) && a < |w.apps| && Books(w, s)
    requires Queued(s.apps, |s.apps|, a) == multiset{} && Tells(w, s, b, p, open, open - {a}, top)
    ensures Tells(w, Begin(w, s, a), b, p, open, open, top)
  {
    assert b != a by { SlotIsQueued(s.apps, |s.apps|, p, b); }
    assert Tangled(w, Begin(w, s, a), b, p) by { BeginKeepsTangle(w, s, a, b, p); }
  }

  lemma {:induction false} BeginKeepsTangle(w: World, s: State, a: nat, b: nat, p: nat)
    requires Valid(w, s) && a < |w.apps| && Books(w, s) && Tangled(w, s, b, p) && b != a
    ensures Tangled(w, Begin(w, s, a), b, p)
  {
    assert Balanced(s, b) && Counted(w, s, b);
    BeginApp(w, s, a, b);
  }

  lemma {:induction false} SlotIsQueued(apps: seq<App>, n: nat, p: nat, b: nat)
    requires p < n <= |apps| && HasSlot(apps[p].callbacks, b)
    ensures |Queued(apps, n, b)| > 0
  {
    assert |Queued(apps, n, b)| == |Queued(apps, n - 1, b)| + |SlotsIn(apps[n - 1].callbacks, b)|;
    if p == n - 1 {
      SlotIsIn(apps[p].callbacks, b);
    } else {
      SlotIsQueued(apps, n - 1, p, b);
    }
  }

  lemma {:induction false} SlotIsIn(q: seq<Callback>, b: nat)
    requires HasSlot(q, b)
    ensures |SlotsIn(q, b)| > 0
  {
    var k :| 0 <= k < |q| && q[k].Preamble? && q[k].parent == b;
    assert |SlotsIn(q, b)| == |SlotOf(q[0], b)| + |SlotsIn(q[1..], b)|;
    if k > 0 {
      assert q[1..][k - 1] == q[k];
      SlotIsIn(q[1..], b);
    }
  }

  lemma {:induction false} PreamblesTell(w: World, s: State, a: nat, i: nat, left: multiset<nat>, open: set<nat>, top: nat)
    requires Valid(w, s) && a < |w.apps| && i <= |w.apps[a].preamble|
    requires Books(w, s) && Waiting(w, s, a, i, left)
    requires Lowest(w, a, open) && Within(w, open, top) && Closed(w, s, open, top)
    requires Telling(w, s, open, open, top)
    ensures Telling(w, RequirePreambles(w, s, a, i), open, open, top)
    decreases w.rank[a], 2, |w.apps[a].preamble| - i
  {
    if i < |w.apps[a].preamble| {
      var s1 := Require(w, s, w.apps[a].preamble[i], Preamble(a, i));
      assert RequirePreambles(w, s, a, i) == RequirePreambles(w, s1, a, i + 1);
      TurnBooks(w, s, s1, a, i, left);
      TurnTells(w, s, s1, a, i, left, open, top);
      PreamblesTell(w, s1, a, i + 1, left, open, top);
    }
  }

  // One turn of the loop over the preambles.
  lemma {:induction false} TurnTells(w: World, s: State, r: State, a: nat, i: nat, left: multiset<nat>, open: set<nat>, top: nat)
    requires Valid(w, s) && a < |w.apps| && i < |w.apps[a].preamble|
    requires r == Require(w, s, w.apps[a].preamble[i], Preamble(a, i))
    requires Books(w, s) && Waiting(w, s, a, i, left)
    requires Lowest(w, a, open) && Within(w, open, top) && Closed(w, s, open, top)
    requires Telling(w, s, open, open, top)
    ensures Closed(w, r, open, top) && Telling(w, r, open, open, top)
    decreases w.rank[a], 1, 0
  {
    var p, cb := w.apps[a].preamble[i], Preamble(a, i);
    assert AllFitWith(w, s, cb) && SettledUpTo(w, s, p) by { RoomFor(w, s, a, i, left); }
    assert Closed(w, r, open, top) by { RequireHolds(w, s, p, cb, open, top); }
    RequireTells(w, s, p, cb, open, top);
  }

  lemma {:induction false} TurnBooks(w: World, s: State, r: State, a: nat, i: nat, left: multiset<nat>)
    requires Valid(w, s) && a < |w.apps| && i < |w.apps[a].preamble|
    requires r == Require(w, s, w.apps[a].preamble[i], Preamble(a, i))
    requires Books(w, s) && Waiting(w, s, a, i, left)
    ensures Valid(w, r) && Books(w, r) && Waiting(w, r, a, i + 1, left)
  {
    var p, cb := w.apps[a].preamble[i], Preamble(a, i);
    assert AllFitWith(w, s, cb) && SettledUpTo(w, s, p) by { RoomFor(w, s, a, i, left); }
    assert Books(w, r) && GrownWith(w, s, r, p, cb) by { RequireBooks(w, s, p, cb); }
    WaitingOn(w, s, r, a, i, left);
  }

  // ---------------------------------------------------------------- events

  ghost predicate AllGated(w: World, s: State) {
    |s.apps| == |w.apps| && forall b :: 0 <= b < |w.apps| ==> Gated(s, b)
  }

  lemma {:induction false} TangledIsWrong(w: World, s: State, b: nat, p: nat)
    requires Valid(w, s) && Books(w, s) && Tangled(w, s, b, p)
    ensures !AllGated(w, s)
  {
    assert Counted(w, s, b);
    assert |Accounted(s, b)| == |Answered(s.history, b)| + |Queued(s.apps, |s.apps|, b)|;
    assert !Gated(s, b);
  }

  // An event that starts an app while it waits leaves a wrong count behind.
  ghost predicate Faithful(w: World, s: State, r: State) {
    && (Undisturbed(r.history) ==> Undisturbed(s.history))
    && (Undisturbed(s.history) && AllGated(w, r) ==> Undisturbed(r.history))
  }

  lemma {:induction false} TellingIsFaithful(w: World, s: State, r: State, open: set<nat>, held: set<nat>, top: nat)
    requires Valid(w, r) && Books(w, r) && (Undisturbed(s.history) ==> Telling(w, r, open, held, top))
    requires Undisturbed(r.history) ==> Undisturbed(s.history)
    ensures Faithful(w, s, r)
  {
    if Undisturbed(s.history) && !Undisturbed(r.history) {
      var b: nat, p: nat :| Tells(w, r, b, p, open, held, top);
      TangledIsWrong(w, r, b, p);
    }
  }

  // What waits on an app is ranked above it.
  lemma {:induction false} OpenAlone(w: World, s: State, a: nat)
    requires Valid(w, s) && a < |w.apps|
    ensures Lowest(w, a, {a}) && Within(w, {a}, w.rank[a] + 1) && Closed(w, s, {a}, w.rank[a] + 1)
  {
    forall x, k | x in {a} && 0 <= x < |s.apps| && 0 <= k < |s.apps[x].callbacks|
      ensures Upward(w, s.apps[x].callbacks[k], {a}, w.rank[a] + 1)
    {
      assert Linked(w, x, s.apps[x].callbacks[k]);
    }
  }

  lemma {:induction false} UserFits(w: World, s: State, id: nat)
    requires Ledger(w, s)
    ensures AllFitWith(w, s, User(id))
  {
    LedgerFits(w, s);
    forall b | 0 <= b < |w.apps| ensures FitsWith(w, s, b, User(id)) {
      assert Fits(w, s, b);
    }
  }

  lemma {:induction false} RequireFaithful(w: World, s: State, a: nat, id: nat)
    requires Ledger(w, s) && a < |w.apps|
    ensures Faithful(w, s, Require(w, s, a, User(id)))
  {
    var cb, r, top := User(id), Require(w, s, a, User(id)), w.rank[a] + 1;
    assert AllFitWith(w, s, cb) && SettledUpTo(w, s, a) by { UserFits(w, s, id); }
    assert Undisturbed(s.history) ==> Telling(w, r, {}, {}, top) by {
      if Undisturbed(s.history) { RequireTells(w, s, a, cb, {}, top); }
    }
    assert Books(w, r) && (Undisturbed(r.history) ==> Undisturbed(s.history)) by { RequireBooks(w, s, a, cb); }
    TellingIsFaithful(w, s, r, {}, {}, top);
  }

  lemma {:induction false} CheckedFaithful(w: World, s: State, a: nat, error: int)
    requires Ledger(w, s) && a < |w.apps|
    requires error == 0 && w.apps[a].checker ==> CheckerSucceeded(s.history, a)
    ensures Faithful(w, s, Checked(w, s, a, error))
  {
    var r, top := Checked(w, s, a, error), w.rank[a] + 1;
    assert AllFit(w, s) && SettledUpTo(w, s, a) by { LedgerFits(w, s); }
    assert Undisturbed(s.history) ==> Telling(w, r, {a}, {a} - {a}, top) by {
      OpenAlone(w, s, a);
      if Undisturbed(s.history) { CheckedTells(w, s, a, error, {a}, top); }
    }
    assert Books(w, r) && (Undisturbed(r.history) ==> Undisturbed(s.history)) by { CheckedBooks(w, s, a, error); }
    TellingIsFaithful(w, s, r, {a}, {a} - {a}, top);
  }

  lemma {:induction false} StartFaithful(w: World, s: State, a: nat)
    requires Ledger(w, s) && a < |w.apps|
    ensures Faithful(w, s, Start(w, s, a))
  {
    var r, top := Start(w, s, a), w.rank[a] + 1;
    assert AllFit(w, s) && SettledUpTo(w, s, a) by { LedgerFits(w, s); }
    assert Undisturbed(s.history) ==> Telling(w, r, {a}, {a} - {a}, top) by {
      OpenAlone(w, s, a);
      if Undisturbed(s.history) { StartTells(w, s, a, {a}, top); }
    }
    assert Books(w, r) && (Undisturbed(r.history) ==> Undisturbed(s.history)) by { StartBooks(w, s, a); }
    TellingIsFaithful(w, s, r, {a}, {a} - {a}, top);
  }

  lemma {:induction false} ClearFaithful(w: World, s: State, a: nat, error: int)
    requires Ledger(w, s) && a < |w.apps|
    requires error == 0 && w.apps[a].checker ==> CheckerSucceeded(s.history, a)
    ensures Undisturbed(Clear(w, s, a, error).history) == Undisturbed(s.history)
  {
    LedgerFits(w, s);
    ClearBooks(w, s, a, error);
  }

  lemma {:induction false} TimerCheckedFaithful(w: World, s: State, a: nat, t: nat, error: int)
    requires Ledger(w, s) && a < |w.apps|
    requires error == 0 && w.apps[a].checker ==> CheckerSucceeded(s.history, a)
    ensures Undisturbed(TimerChecked(w, s, a, t, error).history) == Undisturbed(s.history)
  {
    if Completes(w, s, a, error) {
      RemarkLedger(w, s, CloseTimer(s, a, t));
      ClearFaithful(w, CloseTimer(s, a, t), a, error);
    }
  }

  lemma {:induction false} TickFaithful(w: World, s: State, t: nat)
    requires Ledger(w, s) && t in s.timers
    ensures Undisturbed(Tick(w, s, t).history) == Undisturbed(s.history)
  {
    var a, s1 := s.timers[t], s.Log(Ticked(s.timers[t]));
    RemarkLedger(w, s, s1);
    if s.apps[a].callbacks != [] && !s.apps[a].checking {
      if !w.apps[a].checker {
        TimerCheckedFaithful(w, s1, a, t, 0);
      } else if w.spawn(s.nextId) != 0 {
        var s2 := NewCheck(s1, a, ForTimer(t)).Log(CheckerFailed(a));
        RemarkLedger(w, s1, s2);
        TimerCheckedFaithful(w, s2, a, t, w.spawn(s.nextId));
      }
    }
  }

  lemma {:induction false} CheckReportedFaithful(w: World, s: State, h: nat, status: int, signal: int)
    requires Ledger(w, s) && h in s.checks
    ensures Faithful(w, s, CheckReported(w, s, h, status, signal))
  {
    var a, s1, error := s.checks[h].app, CheckSeen(s, h, status, signal), Int32(Outcome(status, signal));
    RemarkLedger(w, s, s1);
    match s.checks[h].use
    case ForRequire => CheckedFaithful(w, s1, a, error);
    case ForTimer(t) => TimerCheckedFaithful(w, s1, a, t, error);
  }

  lemma {:induction false} ExitedFaithful(w: World, s: State, p: nat, status: int, signal: int)
    requires Ledger(w, s) && p in s.processes
    ensures Faithful(w, s, Exited(w, s, p, status, signal))
  {
    var a, s1 := s.processes[p], ExitSeen(s, p, status, signal);
    RemarkLedger(w, s, s1);
    if Outcome(status, signal) != 0 {
      if s.apps[a].restart {
        var s2 := NoRestart(s1, a);
        RemarkLedger(w, s1, s2);
        StartFaithful(w, s2, a);
      } else if !w.apps[a].checker {
        ClearFaithful(w, s1, a, Int32(Outcome(status, signal)));
      }
    }
  }

  lemma {:induction false} StepFaithful(w: World, s: State, e: Event)
    requires Ledger(w, s) && Enabled(w, s, e)
    ensures Faithful(w, s, Step(w, s, e))
  {
    match e
    case UserRequires(a, id) =>
      var s1 := s.Log(Required(a));
      RemarkLedger(w, s, s1);
      RequireFaithful(w, s1, a, id);
    case CheckerExits(h, status, signal) => CheckReportedFaithful(w, s, h, status, signal);
    case ProcessExits(p, status, signal) => ExitedFaithful(w, s, p, status, signal);
    case TimerTicks(t) => TickFaithful(w, s, t);
    case TimePasses(_) =>
  }

  // ---------------------------------------------------------------- every run

  // After every event, every count is right.
  ghost predicate AlwaysGated(w: World, es: seq<Event>)
    requires w.Acyclic() && Run(w, es).Some?
    decreases |es|
  {
    AllGated(w, Run(w, es).value) && (es != [] ==> AlwaysGated(w, es[..|es| - 1]))
  }

  // All counts are right after every event of a run if and only if no app was started while
  // it waited.
  lemma {:induction false} CountsAlwaysRight(w: World, es: seq<Event>)
    requires w.Acyclic() && Run(w, es).Some?
    ensures AlwaysGated(w, es) <==> Undisturbed(Run(w, es).value.history)
    decreases |es|
  {
    var s := Run(w, es).value;
    if es != [] {
      var n := |es| - 1;
      CountsAlwaysRight(w, es[..n]);
      RunKeeps(w, es[..n]);
      StepFaithful(w, Run(w, es[..n]).value, es[n]);
    }
    if Undisturbed(s.history) {
      forall b | 0 <= b < |w.apps| ensures Gated(s, b) {
        PendingIsQueued(w, es, b);
      }
    }
  }
}
