/** The downward half of the cascade keeps the books as well, and leaves every app it may
    have started waiting for each of its preambles. */
module ProcessDemand {
  import opened Common
  import opened ProcessState
  import opened ProcessSteps
  import opened ProcessBooks
  import opened ProcessCascade

  // Every preamble slot of a started app is answered or queued, and in an undisturbed
  // history exactly once.
  ghost predicate Settled(w: World, s: State, a: nat)
    requires a < |w.apps|
  {
    var n := |w.apps[a].preamble|;
    if HasStarted(s.history, a) then
      && Slots(n) <= Accounted(s, a)
      && (Undisturbed(s.history) ==> Accounted(s, a) == Slots(n))
    else Accounted(s, a) == multiset{}
  }

  ghost predicate SettledUpTo(w: World, s: State, a: nat)
    requires a < |w.apps| == |w.rank|
  {
    forall b :: 0 <= b < |w.apps| && w.rank[b] <= w.rank[a] ==> Settled(w, s, b)
  }

  ghost predicate SettledBut(w: World, s: State, a: nat)
    requires a < |w.apps| == |w.rank|
  {
    forall b :: 0 <= b < |w.apps| && b != a && w.rank[b] <= w.rank[a] ==> Settled(w, s, b)
  }

  // What requiring `a` on behalf of cb does to the accounts.
  ghost predicate GrownWith(w: World, s: State, r: State, a: nat, cb: Callback)
    requires a < |w.apps| == |w.rank|
  {
    && Cause(r.history) == Cause(s.history)
    && (Undisturbed(r.history) ==> Undisturbed(s.history))
    && SettledUpTo(w, r, a)
    && (forall b :: 0 <= b < |w.apps| && w.rank[b] > w.rank[a] ==> MoreApp(s, r, b, cb))
  }

  ghost predicate Grown(w: World, s: State, r: State, a: nat)
    requires a < |w.apps| == |w.rank|
  {
    && Cause(r.history) == Cause(s.history)
    && (Undisturbed(r.history) ==> Undisturbed(s.history))
    && SettledUpTo(w, r, a)
    && (forall b :: 0 <= b < |w.apps| && w.rank[b] > w.rank[a] ==> SameApp(s, r, b))
  }

  lemma {:induction false} StaysSettled(w: World, s: State, r: State, b: nat)
    requires b < |w.apps| && Settled(w, s, b) && SameApp(s, r, b)
    requires Undisturbed(r.history) ==> Undisturbed(s.history)
    ensures Settled(w, r, b)
  {
  }

  lemma {:induction false} AllStaySettled(w: World, s: State, r: State, a: nat)
    requires a < |w.apps| == |w.rank| && SettledUpTo(w, s, a) && SameAccounts(w, s, r)
    ensures Grown(w, s, r, a)
  {
    forall b | 0 <= b < |w.apps| ensures SameApp(s, r, b) && (w.rank[b] <= w.rank[a] ==> Settled(w, r, b)) {
      if w.rank[b] <= w.rank[a] { StaysSettled(w, s, r, b); }
    }
  }

  lemma {:induction false} RemarkGrows(w: World, s: State, r: State, a: nat)
    requires a < |w.apps| == |w.rank| && |s.apps| == |w.apps|
    requires Untouched(s, r) && Remarked(s, r)
    ensures SettledUpTo(w, s, a) ==> SettledUpTo(w, r, a)
    ensures AllFit(w, s) ==> AllFit(w, r)
    ensures Books(w, s) ==> Books(w, r)
    ensures forall b :: 0 <= b < |w.apps| ==> SameApp(s, r, b)
    ensures Undisturbed(r.history) == Undisturbed(s.history)
  {
    Unaffected(w, s, r);
    forall b | 0 <= b < |w.apps|
      ensures SameApp(s, r, b) && (Settled(w, s, b) ==> Settled(w, r, b))
      ensures Fits(w, s, b) ==> Fits(w, r, b)
    {
      if Settled(w, s, b) { StaysSettled(w, s, r, b); }
    }
  }

  lemma {:induction false} Compose(w: World, s: State, m: State, r: State, a: nat)
    requires a < |w.apps| == |w.rank|
    requires Grown(w, m, r, a) && Cause(m.history) == Cause(s.history)
    requires Undisturbed(m.history) ==> Undisturbed(s.history)
    requires forall b :: 0 <= b < |w.apps| && w.rank[b] > w.rank[a] ==> SameApp(s, m, b)
    ensures Grown(w, s, r, a)
  {
    forall b | 0 <= b < |w.apps| && w.rank[b] > w.rank[a] ensures SameApp(s, r, b) {
      assert SameApp(s, m, b) && SameApp(m, r, b);
    }
  }

  lemma {:induction false} ComposeWith(w: World, s: State, m: State, r: State, a: nat, cb: Callback)
    requires a < |w.apps| == |w.rank|
    requires Grown(w, m, r, a) && Cause(m.history) == Cause(s.history)
    requires Undisturbed(m.history) ==> Undisturbed(s.history)
    requires forall b :: 0 <= b < |w.apps| && w.rank[b] > w.rank[a] ==> MoreApp(s, m, b, cb)
    ensures GrownWith(w, s, r, a, cb)
  {
    forall b | 0 <= b < |w.apps| && w.rank[b] > w.rank[a] ensures MoreApp(s, r, b, cb) {
      assert MoreApp(s, m, b, cb) && SameApp(m, r, b);
    }
  }

  // ---------------------------------------------------------------- Require

  lemma {:induction false} PushAccounts(s: State, a: nat, cb: Callback, b: nat)
    requires a < |s.apps|
    ensures MoreApp(s, Push(s, a, cb), b, cb)
  {
    var q := s.apps[a].callbacks;
    var x, y := Queued(Push(s, a, cb).apps, |s.apps|, b), Queued(s.apps, |s.apps|, b);
    QueuedPut(s.apps, |s.apps|, a, s.apps[a].(callbacks := q + [cb]), b);
    SlotsInAppend(q, cb, b);
    PushArithmetic(x, y, SlotsIn(q, b), SlotOf(cb, b), Answered(s.history, b));
    assert Answered(Push(s, a, cb).history, b) == Answered(s.history, b);
  }

  lemma {:induction false} PushArithmetic(x: multiset<nat>, y: multiset<nat>, q: multiset<nat>, c: multiset<nat>, h: multiset<nat>)
    requires x + q == y + (q + c)
    ensures h + x == (h + y) + c
  {
    assert x + q == (y + c) + q;
    MultisetCancel(x, y + c, q);
  }

  lemma {:induction false} PushBooks(w: World, s: State, a: nat, cb: Callback)
    requires Valid(w, s) && a < |w.apps| && Books(w, s)
    ensures Books(w, Push(s, a, cb))
  {
    var r := Push(s, a, cb);
    forall b | 0 <= b < |s.apps| ensures Balanced(r, b) && Counted(w, r, b) {
      assert Balanced(s, b) && Counted(w, s, b);
      assert Answered(r.history, b) == Answered(s.history, b);
    }
  }

  lemma {:induction false} PushSettles(w: World, s: State, a: nat, cb: Callback)
    requires Valid(w, s) && a < |w.apps| && Linked(w, a, cb) && SettledUpTo(w, s, a) && AllFitWith(w, s, cb)
    ensures var r := Push(s, a, cb);
      && SettledUpTo(w, r, a) && AllFit(w, r)
      && forall b :: 0 <= b < |w.apps| ==> MoreApp(s, r, b, cb)
  {
    var r := Push(s, a, cb);
    forall b | 0 <= b < |w.apps|
      ensures MoreApp(s, r, b, cb) && Fits(w, r, b)
      ensures w.rank[b] <= w.rank[a] ==> Settled(w, r, b)
    {
      PushAccounts(s, a, cb, b);
      assert FitsWith(w, s, b, cb);
      if w.rank[b] <= w.rank[a] {
        assert SlotOf(cb, b) == multiset{};
        StaysSettled(w, s, r, b);
      }
    }
  }

  lemma {:induction false} RequireBooks(w: World, s: State, a: nat, cb: Callback)
    requires Valid(w, s) && a < |w.apps| && Linked(w, a, cb)
    requires Books(w, s) && SettledUpTo(w, s, a) && AllFitWith(w, s, cb)
    ensures var r := Require(w, s, a, cb); Books(w, r) && GrownWith(w, s, r, a, cb)
    decreases w.rank[a], 6, 0
  {
    var s1 := Push(s, a, cb);
    PushBooks(w, s, a, cb);
    PushSettles(w, s, a, cb);
    if s.apps[a].callbacks == [] {
      CheckForRequireBooks(w, s1, a);
      ComposeWith(w, s, s1, CheckForRequire(w, s1, a), a, cb);
    }
  }

  lemma {:induction false} CheckForRequireBooks(w: World, s: State, a: nat)
    requires Valid(w, s) && a < |w.apps|
    requires Books(w, s) && SettledUpTo(w, s, a) && AllFit(w, s)
    ensures var r := CheckForRequire(w, s, a); Books(w, r) && Grown(w, s, r, a)
    decreases w.rank[a], 5, 0
  {
    if !w.apps[a].checker {
      CheckedBooks(w, s, a, 0);
    } else {
      var s1 := NewCheck(s, a, ForRequire);
      RemarkGrows(w, s, s1, a);
      var e := w.spawn(s.nextId);
      if e != 0 {
        var s2 := s1.Log(CheckerFailed(a));
        RemarkGrows(w, s, s2, a);
        CheckedBooks(w, s2, a, e);
        Compose(w, s, s2, Checked(w, s2, a, e), a);
      }
    }
  }

  lemma {:induction false} CheckedBooks(w: World, s: State, a: nat, error: int)
    requires Valid(w, s) && a < |w.apps|
    requires Books(w, s) && SettledUpTo(w, s, a) && AllFit(w, s)
    requires error == 0 && w.apps[a].checker ==> CheckerSucceeded(s.history, a)
    ensures var r := Checked(w, s, a, error); Books(w, r) && Grown(w, s, r, a)
    decreases w.rank[a], 4, 0
  {
    var app := s.apps[a];
    if error == 0 && (w.apps[a].checker || app.process.Some?) {
      ClearBooks(w, s, a, 0);
      AllStaySettled(w, s, Clear(w, s, a, 0), a);
    } else if error != 0 && app.process.Some? {
      RemarkGrows(w, s, s.Put(a, app.(restart := true)).Log(Killed(a, app.process.value)), a);
    } else {
      var s1 := s.Put(a, app.(requireStartTime := s.now));
      RemarkGrows(w, s, s1, a);
      StartBooks(w, s1, a);
      Compose(w, s, s1, Start(w, s1, a), a);
    }
  }

  // ---------------------------------------------------------------- Start

  lemma {:induction false} BeginApp(w: World, s: State, a: nat, b: nat)
    requires Valid(w, s) && a < |w.apps| && b < |w.apps| && Balanced(s, b) && Counted(w, s, b)
    ensures var r := Begin(w, s, a);
      && Balanced(r, b)
      && (b != a ==> Counted(w, r, b) && SameApp(s, r, b))
  {
    var r, h, g := Begin(w, s, a), s.history, Begin(w, s, a).history;
    QueuedSame(s.apps, r.apps, |s.apps|, b);
    assert Balanced(r, b) by {
      assert RegisteredOn(g, b) == RegisteredOn(h, b) && InvokedOn(g, b) == InvokedOn(h, b);
    }
    if b != a {
      assert Answered(g, b) == Answered(h, b) && HasStarted(g, b) == HasStarted(h, b);
      assert Failures(g, b) == Failures(h, b) && Launches(g, b) == Launches(h, b);
    }
  }

  // An app that starts waits afresh for all its preambles; nothing is left over from an
  // earlier start unless the history is disturbed.
  lemma {:induction false} BeginSelf(w: World, s: State, a: nat)
    requires Valid(w, s) && a < |w.apps| && Counted(w, s, a) && Settled(w, s, a)
    ensures var r := Begin(w, s, a);
      && Accounted(r, a) == Queued(s.apps, |s.apps|, a)
      && (Undisturbed(r.history) ==> Accounted(r, a) == multiset{})
      && (if w.apps[a].preamble == [] then Ready(w, r, a) else Counted(w, r, a))
  {
    var r, n, q := Begin(w, s, a), |w.apps[a].preamble|, Queued(s.apps, |s.apps|, a);
    QueuedSame(s.apps, r.apps, |s.apps|, a);
    if Undisturbed(r.history) && HasStarted(s.history, a) {
      SlotsSize(n);
      assert |Accounted(s, a)| == |Answered(s.history, a)| + |q| == n;
    }
  }

  lemma {:induction false} SlotsGrow(m: nat, n: nat)
    requires m <= n
    ensures Slots(m) <= Slots(n)
  {
    if m < n { SlotsGrow(m, n - 1); }
  }

  lemma {:induction false} StartBooks(w: World, s: State, a: nat)
    requires Valid(w, s) && a < |w.apps|
    requires Books(w, s) && SettledUpTo(w, s, a) && AllFit(w, s)
    ensures var r := Start(w, s, a); Books(w, r) && Grown(w, s, r, a)
    decreases w.rank[a], 3, 0
  {
    var s1 := Begin(w, s, a);
    BeginAll(w, s, a);
    if w.apps[a].preamble == [] {
      LaunchEmpty(w, s1, a);
      Finish(w, s, s1, Launch(w, s1, a, 0), a, Accounted(s1, a));
    } else {
      PreamblesBooks(w, s1, a, 0, Accounted(s1, a));
      Finish(w, s, s1, RequirePreambles(w, s1, a, 0), a, Accounted(s1, a));
    }
  }

  lemma {:induction false} LaunchEmpty(w: World, s: State, a: nat)
    requires Valid(w, s) && a < |w.apps| && w.apps[a].preamble == []
    requires BooksBut(w, s, a) && Ready(w, s, a) && AllFit(w, s) && Waiting(w, s, a, 0, Accounted(s, a))
    requires s.apps[a].errorPreamble == 0
    ensures var r := Launch(w, s, a, 0);
      Books(w, r) && Waited(w, s, r, a, Accounted(s, a))
  {
    LaunchBooks(w, s, a, 0);
    var r := Launch(w, s, a, 0);
    assert SameApp(s, r, a);
    StillFits(w, s, r);
    forall b | 0 <= b < |w.apps| && b != a
      ensures SameApp(s, r, b) && Fits(w, r, b)
      ensures w.rank[b] <= w.rank[a] ==> Settled(w, r, b)
    {
      if w.rank[b] <= w.rank[a] { StaysSettled(w, s, r, b); }
    }
  }

  lemma {:induction false} BeginAll(w: World, s: State, a: nat)
    requires Valid(w, s) && a < |w.apps|
    requires Books(w, s) && SettledUpTo(w, s, a) && AllFit(w, s)
    ensures var r := Begin(w, s, a);
      && Waiting(w, r, a, 0, Accounted(r, a))
      && (forall b :: 0 <= b < |w.apps| && b != a ==> SameApp(s, r, b))
      && (if w.apps[a].preamble == [] then BooksBut(w, r, a) && Ready(w, r, a) && AllFit(w, r) else Books(w, r))
  {
    var r := Begin(w, s, a);
    BeginSelf(w, s, a);
    forall b | 0 <= b < |w.apps|
      ensures Balanced(r, b) && (b != a ==> Counted(w, r, b) && SameApp(s, r, b))
      ensures Fits(w, r, b)
      ensures b != a && w.rank[b] <= w.rank[a] ==> Settled(w, r, b)
    {
      BeginApp(w, s, a, b);
      assert Fits(w, s, b);
      if b != a && w.rank[b] <= w.rank[a] { StaysSettled(w, s, r, b); }
    }
  }

  // The loop of CheckPreamble: i slots of `a` are accounted for, beside what was left over.
  ghost predicate Waiting(w: World, s: State, a: nat, i: nat, left: multiset<nat>)
    requires |s.apps| == |w.apps| == |w.rank| && a < |w.apps|
  {
    && HasStarted(s.history, a)
    && Accounted(s, a) == left + Slots(i)
    && (Undisturbed(s.history) ==> left == multiset{})
    && SettledBut(w, s, a)
    && (forall b :: 0 <= b < |w.apps| && b != a ==> Fits(w, s, b))
  }

  // All slots of `a` are accounted for.
  ghost predicate Waited(w: World, s: State, r: State, a: nat, left: multiset<nat>)
    requires |r.apps| == |w.apps| == |w.rank| && a < |w.apps|
  {
    && Waiting(w, r, a, |w.apps[a].preamble|, left)
    && SameAbove(w, s, r, a)
  }

  ghost predicate SameAbove(w: World, s: State, r: State, a: nat)
    requires a < |w.apps| == |w.rank|
  {
    && Cause(r.history) == Cause(s.history)
    && (Undisturbed(r.history) ==> Undisturbed(s.history))
    && (forall b :: 0 <= b < |w.apps| && b != a && w.rank[b] >= w.rank[a] ==> SameApp(s, r, b))
  }

  lemma {:induction false} SameAboveTwice(w: World, s: State, m: State, r: State, a: nat)
    requires a < |w.apps| == |w.rank| && SameAbove(w, s, m, a) && SameAbove(w, m, r, a)
    ensures SameAbove(w, s, r, a)
  {
    forall b | 0 <= b < |w.apps| && b != a && w.rank[b] >= w.rank[a] ensures SameApp(s, r, b) {
      assert SameApp(s, m, b) && SameApp(m, r, b);
    }
  }

  lemma {:induction false} PreamblesBooks(w: World, s: State, a: nat, i: nat, left: multiset<nat>)
    requires Valid(w, s) && a < |w.apps| && i <= |w.apps[a].preamble|
    requires Books(w, s) && Waiting(w, s, a, i, left)
    ensures var r := RequirePreambles(w, s, a, i);
      Books(w, r) && Waited(w, s, r, a, left)
    decreases w.rank[a], 2, |w.apps[a].preamble| - i
  {
    if i < |w.apps[a].preamble| {
      var s1 := Require(w, s, w.apps[a].preamble[i], Preamble(a, i));
      PreambleTurn(w, s, a, i, left);
      PreamblesBooks(w, s1, a, i + 1, left);
      SameAboveTwice(w, s, s1, RequirePreambles(w, s1, a, i + 1), a);
    }
  }

  // One turn of the loop.
  lemma {:induction false} PreambleTurn(w: World, s: State, a: nat, i: nat, left: multiset<nat>)
    requires Valid(w, s) && a < |w.apps| && i < |w.apps[a].preamble|
    requires Books(w, s) && Waiting(w, s, a, i, left)
    ensures var r := Require(w, s, w.apps[a].preamble[i], Preamble(a, i));
      Books(w, r) && Waiting(w, r, a, i + 1, left) && SameAbove(w, s, r, a)
    decreases w.rank[a], 1, 0
  {
    var p, cb := w.apps[a].preamble[i], Preamble(a, i);
    RoomFor(w, s, a, i, left);
    RequireBooks(w, s, p, cb);
    WaitingOn(w, s, Require(w, s, p, cb), a, i, left);
  }

  lemma {:induction false} RoomForOwn(w: World, s: State, a: nat, i: nat)
    requires a < |w.apps| && i < |w.apps[a].preamble| && Accounted(s, a) == Slots(i)
    ensures FitsWith(w, s, a, Preamble(a, i))
  {
    SlotsGrow(i + 1, |w.apps[a].preamble|);
    assert SlotOf(Preamble(a, i), a) == multiset{i};
  }

  lemma {:induction false} RoomFor(w: World, s: State, a: nat, i: nat, left: multiset<nat>)
    requires Valid(w, s) && a < |w.apps| && i < |w.apps[a].preamble| && Waiting(w, s, a, i, left)
    ensures AllFitWith(w, s, Preamble(a, i)) && SettledUpTo(w, s, w.apps[a].preamble[i])
  {
    if Undisturbed(s.history) {
      assert left + Slots(i) == Slots(i);
      RoomForOwn(w, s, a, i);
    }
    forall b | 0 <= b < |w.apps| ensures FitsWith(w, s, b, Preamble(a, i)) {
      if b != a { OthersSlot(w, s, b, Preamble(a, i)); }
    }
  }

  lemma {:induction false} OthersSlot(w: World, s: State, b: nat, cb: Callback)
    requires b < |w.apps| && cb.Preamble? && cb.parent != b && Fits(w, s, b)
    ensures FitsWith(w, s, b, cb)
  {
  }

  lemma {:induction false} WaitingOn(w: World, s: State, r: State, a: nat, i: nat, left: multiset<nat>)
    requires Valid(w, s) && Valid(w, r) && a < |w.apps| && i < |w.apps[a].preamble|
    requires Waiting(w, s, a, i, left)
    requires GrownWith(w, s, r, w.apps[a].preamble[i], Preamble(a, i))
    ensures Waiting(w, r, a, i + 1, left) && SameAbove(w, s, r, a)
  {
    var p, cb := w.apps[a].preamble[i], Preamble(a, i);
    assert MoreApp(s, r, a, cb);
    forall b | 0 <= b < |w.apps| && b != a
      ensures w.rank[b] <= w.rank[a] ==> Settled(w, r, b)
      ensures w.rank[b] >= w.rank[a] ==> SameApp(s, r, b)
      ensures Fits(w, r, b)
    {
      if w.rank[b] > w.rank[p] {
        assert MoreApp(s, r, b, cb);
        assert Fits(w, s, b);
        if w.rank[b] <= w.rank[a] { StaysSettled(w, s, r, b); }
      }
    }
  }

  lemma {:induction false} Finish(w: World, s: State, m: State, r: State, a: nat, left: multiset<nat>)
    requires Valid(w, s) && Valid(w, m) && Valid(w, r) && a < |w.apps| && m == Begin(w, s, a)
    requires Waited(w, m, r, a, left)
    requires forall b :: 0 <= b < |w.apps| && b != a ==> SameApp(s, m, b)
    ensures Grown(w, s, r, a)
  {
    forall b | 0 <= b < |w.apps| && w.rank[b] > w.rank[a] ensures SameApp(s, r, b) {
      assert SameApp(s, m, b) && SameApp(m, r, b);
    }
  }

  // ---------------------------------------------------------------- events

  // What every event of the environment keeps.
  ghost predicate Ledger(w: World, s: State) {
    Valid(w, s) && Books(w, s) && forall b :: 0 <= b < |w.apps| ==> Settled(w, s, b)
  }

  lemma {:induction false} LedgerFits(w: World, s: State)
    requires Ledger(w, s)
    ensures AllFit(w, s)
  {
    forall b | 0 <= b < |w.apps| ensures Fits(w, s, b) {
      assert Settled(w, s, b);
    }
  }

  // All apps, those below `a` and those above it, are settled once `a` has been required.
  lemma {:induction false} GrownLedger(w: World, s: State, m: State, r: State, a: nat)
    requires a < |w.apps| && Ledger(w, s) && Valid(w, r) && Books(w, r)
    requires forall b :: 0 <= b < |w.apps| ==> SameApp(s, m, b)
    requires Undisturbed(m.history) ==> Undisturbed(s.history)
    requires Grown(w, m, r, a)
    ensures Ledger(w, r)
  {
    forall b | 0 <= b < |w.apps| ensures Settled(w, r, b) {
      if w.rank[b] > w.rank[a] {
        assert SameApp(s, m, b) && SameApp(m, r, b);
        StaysSettled(w, s, r, b);
      }
    }
  }

  lemma {:induction false} RemarkLedger(w: World, s: State, r: State)
    requires Ledger(w, s) && Valid(w, r) && Untouched(s, r) && Remarked(s, r)
    ensures Ledger(w, r) && forall b :: 0 <= b < |w.apps| ==> SameApp(s, r, b)
    ensures Undisturbed(r.history) == Undisturbed(s.history)
  {
    Unaffected(w, s, r);
    forall b | 0 <= b < |w.apps| ensures Settled(w, r, b) {
      StaysSettled(w, s, r, b);
    }
  }

  lemma {:induction false} ClearLedger(w: World, s: State, a: nat, error: int)
    requires Ledger(w, s) && a < |w.apps|
    requires error == 0 && w.apps[a].checker ==> CheckerSucceeded(s.history, a)
    ensures Ledger(w, Clear(w, s, a, error))
  {
    LedgerFits(w, s);
    ClearBooks(w, s, a, error);
    var r := Clear(w, s, a, error);
    forall b | 0 <= b < |w.apps| ensures Settled(w, r, b) {
      assert SameApp(s, r, b);
      StaysSettled(w, s, r, b);
    }
  }

  lemma {:induction false} TimerCheckedLedger(w: World, s: State, a: nat, t: nat, error: int)
    requires Ledger(w, s) && a < |w.apps|
    requires error == 0 && w.apps[a].checker ==> CheckerSucceeded(s.history, a)
    ensures Ledger(w, TimerChecked(w, s, a, t, error))
  {
    if Completes(w, s, a, error) {
      var s0 := CloseTimer(s, a, t);
      RemarkLedger(w, s, s0);
      ClearLedger(w, s0, a, error);
      var s1 := Clear(w, s0, a, error);
      RemarkLedger(w, s1, SetChecking(s1, a, false));
    } else {
      RemarkLedger(w, s, SetChecking(s, a, false));
    }
  }

  lemma {:induction false} CheckForTimerLedger(w: World, s: State, a: nat, t: nat)
    requires Ledger(w, s) && a < |w.apps|
    ensures Ledger(w, CheckForTimer(w, s, a, t))
  {
    if !w.apps[a].checker {
      TimerCheckedLedger(w, s, a, t, 0);
    } else {
      var s1 := NewCheck(s, a, ForTimer(t));
      RemarkLedger(w, s, s1);
      var e := w.spawn(s.nextId);
      if e != 0 {
        RemarkLedger(w, s1, s1.Log(CheckerFailed(a)));
        TimerCheckedLedger(w, s1.Log(CheckerFailed(a)), a, t, e);
      }
    }
  }

  lemma {:induction false} TickLedger(w: World, s: State, t: nat)
    requires Ledger(w, s) && t in s.timers
    ensures Ledger(w, Tick(w, s, t))
  {
    var a := s.timers[t];
    var s1 := s.Log(Ticked(a));
    RemarkLedger(w, s, s1);
    if s.apps[a].callbacks == [] {
      RemarkLedger(w, s1, s1.(timers := s1.timers - {t}));
    } else if !s.apps[a].checking {
      CheckForTimerLedger(w, s1, a, t);
      var s2 := CheckForTimer(w, s1, a, t);
      RemarkLedger(w, s2, SetChecking(s2, a, true));
    }
  }

  lemma {:induction false} CheckReportedLedger(w: World, s: State, h: nat, status: int, signal: int)
    requires Ledger(w, s) && h in s.checks
    ensures Ledger(w, CheckReported(w, s, h, status, signal))
  {
    var a := s.checks[h].app;
    var s1 := CheckSeen(s, h, status, signal);
    var error := Int32(Outcome(status, signal));
    RemarkLedger(w, s, s1);
    match s.checks[h].use
    case ForRequire =>
      LedgerFits(w, s1);
      CheckedBooks(w, s1, a, error);
      GrownLedger(w, s, s1, Checked(w, s1, a, error), a);
    case ForTimer(t) => TimerCheckedLedger(w, s1, a, t, error);
  }

  lemma {:induction false} ExitedLedger(w: World, s: State, p: nat, status: int, signal: int)
    requires Ledger(w, s) && p in s.processes
    ensures Ledger(w, Exited(w, s, p, status, signal))
  {
    var a := s.processes[p];
    var app := s.apps[a];
    var s1 := ExitSeen(s, p, status, signal);
    RemarkLedger(w, s, s1);
    if Outcome(status, signal) != 0 {
      if app.restart {
        var s2 := NoRestart(s1, a);
        RemarkLedger(w, s1, s2);
        LedgerFits(w, s2);
        StartBooks(w, s2, a);
        GrownLedger(w, s1, s2, Start(w, s2, a), a);
      } else if !w.apps[a].checker {
        ClearLedger(w, s1, a, Int32(Outcome(status, signal)));
      }
    }
  }

  lemma {:induction false} UserRequiresLedger(w: World, s: State, a: nat, id: nat)
    requires Ledger(w, s) && a < |w.apps|
    ensures Ledger(w, Require(w, s.Log(Required(a)), a, User(id)))
  {
    var s1, cb := s.Log(Required(a)), User(id);
    RemarkLedger(w, s, s1);
    LedgerFits(w, s1);
    forall b | 0 <= b < |w.apps| ensures FitsWith(w, s1, b, cb) {
      assert Fits(w, s1, b);
    }
    RequireBooks(w, s1, a, cb);
    var r := Require(w, s1, a, cb);
    forall b | 0 <= b < |w.apps| && w.rank[b] > w.rank[a] ensures SameApp(s1, r, b) {
      assert MoreApp(s1, r, b, cb);
    }
    GrownLedger(w, s, s1, r, a);
  }

  lemma {:induction false} StepLedger(w: World, s: State, e: Event)
    requires Ledger(w, s) && Enabled(w, s, e)
    ensures Ledger(w, Step(w, s, e))
  {
    match e
    case UserRequires(a, id) => UserRequiresLedger(w, s, a, id);
    case CheckerExits(h, status, signal) => CheckReportedLedger(w, s, h, status, signal);
    case ProcessExits(p, status, signal) => ExitedLedger(w, s, p, status, signal);
    case TimerTicks(t) => TickLedger(w, s, t);
    case TimePasses(ms) => RemarkLedger(w, s, s.(now := s.now + ms).Log(Passed(ms)));
  }

  lemma {:induction false} InitialLedger(w: World)
    requires w.Acyclic()
    ensures Ledger(w, Initial(w))
  {
    forall b | 0 <= b < |w.apps| ensures Settled(w, Initial(w), b) {
      NothingQueued(Initial(w).apps, |w.apps|, b);
    }
  }

  lemma {:induction false} NothingQueued(apps: seq<App>, n: nat, a: nat)
    requires n <= |apps| && forall b :: 0 <= b < n ==> apps[b].callbacks == []
    ensures Queued(apps, n, a) == multiset{}
  {
    if n > 0 { NothingQueued(apps, n - 1, a); }
  }
}
