/** Every cascade keeps the books: conservation of callbacks, the count of answers a start
    is waiting for, and a justification for everything the history reports. */
module ProcessCascade {
  import opened ProcessState
  import opened ProcessSteps
  import opened ProcessBooks

  // ---------------------------------------------------------------- the atomic changes

  // In the books, but for one waiter of `a` that has left its queue unanswered.
  ghost predicate Owing(w: World, s: State, a: nat, cb: Callback)
    requires a < |s.apps| == |w.apps|
  {
    && JustifiedHistory(w, s.history)
    && RegisteredOn(s.history, a) == InvokedOn(s.history, a) + [cb] + s.apps[a].callbacks
    && (forall b :: 0 <= b < |s.apps| && b != a ==> Balanced(s, b))
    && (forall b :: 0 <= b < |s.apps| ==> Counted(w, s, b))
  }

  lemma {:induction false} PopAccounts(s: State, a: nat, b: nat)
    requires a < |s.apps| && s.apps[a].callbacks != []
    ensures Accounted(Pop(s, a), b) + SlotOf(s.apps[a].callbacks[0], b) == Accounted(s, b)
  {
    var q := s.apps[a].callbacks;
    QueuedPut(s.apps, |s.apps|, a, s.apps[a].(callbacks := q[1..]), b);
    var x, y := Queued(Pop(s, a).apps, |s.apps|, b), Queued(s.apps, |s.apps|, b);
    assert x + (SlotOf(q[0], b) + SlotsIn(q[1..], b)) == y + SlotsIn(q[1..], b);
    MultisetCancel(x + SlotOf(q[0], b), y, SlotsIn(q[1..], b));
  }

  lemma {:induction false} PopOwes(w: World, s: State, a: nat)
    requires Valid(w, s) && a < |w.apps| && s.apps[a].callbacks != [] && Books(w, s)
    ensures Owing(w, Pop(s, a), a, s.apps[a].callbacks[0])
  {
    var s1, q := Pop(s, a), s.apps[a].callbacks;
    assert Balanced(s, a) && q == [q[0]] + q[1..];
    forall b | 0 <= b < |s.apps|
      ensures Counted(w, s1, b) && (b != a ==> Balanced(s1, b))
    {
      assert Balanced(s, b) && Counted(w, s, b);
    }
  }

  lemma {:induction false} ToldAccounts(w: World, s: State, a: nat, cb: Callback, error: int)
    requires Valid(w, s) && a < |w.apps| && Linked(w, a, cb)
    ensures MoreAccounts(w, s, Told(s, a, cb, error), cb)
  {
    var r := Told(s, a, cb, error);
    forall b | 0 <= b < |w.apps|
      ensures MoreApp(s, r, b, cb)
    {
      QueuedSame(s.apps, r.apps, |s.apps|, b);
      assert Answered(r.history, b) == Answered(s.history, b) + SlotOf(cb, b);
    }
  }

  // Where the continuation does not run, the books are in order again; where it does, its
  // app is ready for it.
  lemma {:induction false} ToldBooks(w: World, s: State, a: nat, cb: Callback, error: int)
    requires Valid(w, s) && a < |w.apps| && Linked(w, a, cb) && Owing(w, s, a, cb)
    requires error == 0 && w.apps[a].checker ==> CheckerSucceeded(s.history, a)
    ensures var r := Told(s, a, cb, error);
      if cb.Preamble? && r.apps[cb.parent].pendingPreamble == 0
      then BooksBut(w, r, cb.parent) && Ready(w, r, cb.parent)
      else Books(w, r)
  {
    var r := Told(s, a, cb, error);
    forall b | 0 <= b < |s.apps| ensures Balanced(r, b) {
      assert b != a ==> Balanced(s, b);
    }
    forall b | 0 <= b < |s.apps|
      ensures if cb.Preamble? && b == cb.parent && r.apps[b].pendingPreamble == 0 then Ready(w, r, b) else Counted(w, r, b)
    {
      assert Counted(w, s, b);
      assert |Answered(r.history, b)| == |Answered(s.history, b)| + |SlotOf(cb, b)|;
    }
  }

  // ---------------------------------------------------------------- the upward half

  lemma {:induction false} ClearBooks(w: World, s: State, a: nat, error: int)
    requires Valid(w, s) && a < |w.apps| && Books(w, s) && AllFit(w, s)
    requires error == 0 && w.apps[a].checker ==> CheckerSucceeded(s.history, a)
    ensures Books(w, Clear(w, s, a, error))
    ensures SameAccounts(w, s, Clear(w, s, a, error))
    decreases |w.apps| - w.rank[a], 1, |s.apps[a].callbacks|
  {
    if s.apps[a].callbacks != [] {
      var cb, s1 := s.apps[a].callbacks[0], Pop(s, a);
      PopOwes(w, s, a);
      forall b | 0 <= b < |w.apps|
        ensures Accounted(s1, b) + SlotOf(cb, b) == Accounted(s, b)
        ensures FitsWith(w, s1, b, cb)
      {
        PopAccounts(s, a, b);
        assert Fits(w, s, b);
      }
      AnswerBooks(w, s1, a, cb, error);
      var s2 := Answer(w, s1, a, cb, error);
      forall b | 0 <= b < |w.apps| ensures SameApp(s, s2, b) {
        assert MoreApp(s1, s2, b, cb);
      }
      StillFits(w, s, s2);
      ClearBooks(w, s2, a, error);
      SameTwice(w, s, s2, Clear(w, s2, a, error));
    }
  }

  lemma {:induction false} AnswerBooks(w: World, s: State, a: nat, cb: Callback, error: int)
    requires Valid(w, s) && a < |w.apps| && Linked(w, a, cb) && Owing(w, s, a, cb) && AllFitWith(w, s, cb)
    requires error == 0 && w.apps[a].checker ==> CheckerSucceeded(s.history, a)
    ensures Books(w, Answer(w, s, a, cb, error))
    ensures MoreAccounts(w, s, Answer(w, s, a, cb, error), cb)
    decreases |w.apps| - w.rank[a], 0, 0
  {
    var s1 := Told(s, a, cb, error);
    ToldAccounts(w, s, a, cb, error);
    ToldBooks(w, s, a, cb, error);
    if cb.Preamble? && s1.apps[cb.parent].pendingPreamble == 0 {
      forall b | 0 <= b < |w.apps| ensures Fits(w, s1, b) {
        assert FitsWith(w, s, b, cb) && MoreApp(s, s1, b, cb);
      }
      LaunchBooks(w, s1, cb.parent, s1.apps[cb.parent].errorPreamble);
      var r := Answer(w, s, a, cb, error);
      forall b | 0 <= b < |w.apps| ensures MoreApp(s, r, b, cb) {
        assert MoreApp(s, s1, b, cb) && SameApp(s1, r, b);
      }
    }
  }

  lemma {:induction false} StillFits(w: World, s: State, r: State)
    requires SameAccounts(w, s, r)
    ensures AllFit(w, s) ==> AllFit(w, r)
  {
    if AllFit(w, s) {
      forall b | 0 <= b < |w.apps| ensures Fits(w, r, b) {
        assert Fits(w, s, b) && SameApp(s, r, b);
      }
    }
  }

  lemma {:induction false} SameTwice(w: World, s: State, m: State, r: State)
    requires SameAccounts(w, s, m) && SameAccounts(w, m, r)
    ensures SameAccounts(w, s, r)
  {
    forall b | 0 <= b < |w.apps| ensures SameApp(s, r, b) {
      assert SameApp(s, m, b) && SameApp(m, r, b);
    }
  }

  lemma {:induction false} ReadyIsAnswered(w: World, s: State, a: nat)
    requires Valid(w, s) && a < |w.apps| && Ready(w, s, a) && Fits(w, s, a)
    ensures AllAnswered(w, s.history, a)
  {
    var n := |w.apps[a].preamble|;
    SlotsSize(n);
    if Undisturbed(s.history) {
      assert Answered(s.history, a) <= Accounted(s, a);
      FullSubset(Answered(s.history, a), Slots(n));
    }
  }

  lemma {:induction false} LaunchingApp(w: World, s: State, r: State, e: Entry, b: nat)
    requires b < |w.apps| == |s.apps| && Untouched(s, r)
    requires r.history == Then(s.history, e) && (e.Refused? || e.Spawned?)
    requires Balanced(s, b) && (if b == e.app then Ready(w, s, b) else Counted(w, s, b))
    ensures SameApp(s, r, b) && Balanced(r, b) && Counted(w, r, b)
  {
    QueuedSame(s.apps, r.apps, |s.apps|, b);
    ReadsPast(s.history, e, b);
  }

  lemma {:induction false} LaunchingJustified(w: World, s: State, a: nat, error: int)
    requires Valid(w, s) && a < |w.apps| && BooksBut(w, s, a) && Ready(w, s, a) && AllFit(w, s)
    requires error == s.apps[a].errorPreamble
    ensures JustifiedHistory(w, Launching(s, a, error).history)
  {
    assert Fits(w, s, a);
    ReadyIsAnswered(w, s, a);
  }

  lemma {:induction false} LaunchingBooks(w: World, s: State, r: State, e: Entry)
    requires e.Refused? || e.Spawned?
    requires e.app < |w.apps| == |s.apps| && Untouched(s, r) && r.history == Then(s.history, e)
    requires BooksBut(w, s, e.app) && Ready(w, s, e.app) && JustifiedHistory(w, r.history)
    ensures Books(w, r) && SameAccounts(w, s, r)
  {
    forall b | 0 <= b < |w.apps| ensures SameApp(s, r, b) && Balanced(r, b) && Counted(w, r, b) {
      LaunchingApp(w, s, r, e, b);
    }
  }

  lemma {:induction false} FullSubset(x: multiset<nat>, y: multiset<nat>)
    requires x <= y && |x| == |y|
    ensures x == y
  {
    assert y == x + (y - x);
    assert |y| == |x| + |y - x|;
  }

  lemma {:induction false} LaunchBooks(w: World, s: State, a: nat, error: int)
    requires Valid(w, s) && a < |w.apps| && BooksBut(w, s, a) && Ready(w, s, a) && AllFit(w, s)
    requires error == s.apps[a].errorPreamble
    ensures Books(w, Launch(w, s, a, error))
    ensures SameAccounts(w, s, Launch(w, s, a, error))
    decreases |w.apps| - w.rank[a], 2, 0
  {
    var s1 := Launching(s, a, error);
    assert Books(w, s1) && SameAccounts(w, s, s1) by {
      LaunchingJustified(w, s, a, error);
      LaunchingBooks(w, s, s1, s1.history.entry);
    }
    if error != 0 {
      FailureBooks(w, s, s1, a, error);
    } else if w.spawn(s.nextId) != 0 {
      var s2 := NoProcess(s1, a);
      assert Books(w, s2) && SameAccounts(w, s1, s2) by { Unaffected(w, s1, s2); }
      SameTwice(w, s, s1, s2);
      FailureBooks(w, s, s2, a, w.spawn(s.nextId));
    }
  }

  lemma {:induction false} FailureBooks(w: World, s: State, m: State, a: nat, error: int)
    requires Valid(w, s) && Valid(w, m) && a < |w.apps| && AllFit(w, s)
    requires Books(w, m) && SameAccounts(w, s, m) && error != 0
    ensures Books(w, Clear(w, m, a, error)) && SameAccounts(w, s, Clear(w, m, a, error))
    decreases |w.apps| - w.rank[a], 1, |m.apps[a].callbacks| + 1
  {
    StillFits(w, s, m);
    ClearBooks(w, m, a, error);
    SameTwice(w, s, m, Clear(w, m, a, error));
  }
}
