/** What requiring an app does when preambles may form a cycle, as long as no waiter is
    answered: it ends, since an app that already has waiters is not looked into again, and
    where every app has a preamble nobody is ever answered. */
module ProcessCycles {
  import opened Common
  import opened ProcessState
  import opened ProcessSteps

  // A configuration whose preambles exist; they may form cycles.
  ghost predicate Shaped(w: World, s: State) {
    && |s.apps| == |w.apps|
    && forall a, i :: 0 <= a < |w.apps| && 0 <= i < |w.apps[a].preamble| ==> w.apps[a].preamble[i] < |w.apps|
  }

  // The apps, among the first n, that nobody waits for.
  function IdleOf(apps: seq<App>, n: nat): nat
    requires n <= |apps|
  {
    if n == 0 then 0 else IdleOf(apps, n - 1) + if apps[n - 1].callbacks == [] then 1 else 0
  }

  function Idle(s: State): nat {
    IdleOf(s.apps, |s.apps|)
  }

  // Waiters stay where they are.
  predicate Longer(s: State, r: State) {
    && |r.apps| == |s.apps|
    && forall a :: 0 <= a < |s.apps| ==> s.apps[a].callbacks <= r.apps[a].callbacks
  }

  lemma {:induction false} LongerIdle(apps: seq<App>, more: seq<App>, n: nat)
    requires n <= |apps| == |more| && forall a :: 0 <= a < n ==> apps[a].callbacks <= more[a].callbacks
    ensures IdleOf(more, n) <= IdleOf(apps, n)
    ensures (exists a :: 0 <= a < n && apps[a].callbacks == [] && more[a].callbacks != []) ==> IdleOf(more, n) < IdleOf(apps, n)
  {
    if n > 0 { LongerIdle(apps, more, n - 1); }
  }

  // The functions of the downward half; None once waiters would be answered or a process
  // created. They need no order of the apps: fewer and fewer have no waiters.
  ghost function SeekRequire(w: World, s: State, a: nat, cb: Callback): (r: Option<State>)
    requires Shaped(w, s) && a < |w.apps|
    ensures r.Some? ==> Shaped(w, r.value) && Longer(s, r.value) && Idle(r.value) <= Idle(s)
    decreases Idle(s), 0, 0
  {
    var s1 := Push(s, a, cb);
    LongerIdle(s.apps, s1.apps, |s.apps|);
    if |s1.apps[a].callbacks| > 1 then Some(s1) else SeekCheck(w, s1, a)
  }

  ghost function SeekCheck(w: World, s: State, a: nat): (r: Option<State>)
    requires Shaped(w, s) && a < |w.apps|
    ensures r.Some? ==> Shaped(w, r.value) && Longer(s, r.value) && Idle(r.value) <= Idle(s)
    decreases Idle(s), 5, 0
  {
    if !w.apps[a].checker then SeekChecked(w, s, a, 0)
    else
      var s1, e := NewCheck(s, a, ForRequire), w.spawn(s.nextId);
      if e == 0 then Some(s1) else SeekChecked(w, s1.Log(CheckerFailed(a)), a, e)
  }

  ghost function SeekChecked(w: World, s: State, a: nat, error: int): (r: Option<State>)
    requires Shaped(w, s) && a < |w.apps|
    ensures r.Some? ==> Shaped(w, r.value) && Longer(s, r.value) && Idle(r.value) <= Idle(s)
    decreases Idle(s), 4, 0
  {
    var app := s.apps[a];
    var killed, dated := s.Put(a, app.(restart := true)), s.Put(a, app.(requireStartTime := s.now));
    LongerIdle(s.apps, killed.apps, |s.apps|);
    LongerIdle(s.apps, dated.apps, |s.apps|);
    if error == 0 && (w.apps[a].checker || app.process.Some?) then None
    else if error != 0 && app.process.Some? then Some(killed.Log(Killed(a, app.process.value)))
    else SeekStart(w, dated, a)
  }

  ghost function SeekStart(w: World, s: State, a: nat): (r: Option<State>)
    requires Shaped(w, s) && a < |w.apps|
    ensures r.Some? ==> Shaped(w, r.value) && Longer(s, r.value) && Idle(r.value) <= Idle(s)
    decreases Idle(s), 3, 0
  {
    var s1 := Begin(w, s, a);
    LongerIdle(s.apps, s1.apps, |s.apps|);
    if w.apps[a].preamble == [] then None else SeekPreambles(w, s1, a, 0)
  }

  ghost function SeekPreambles(w: World, s: State, a: nat, i: nat): (r: Option<State>)
    requires Shaped(w, s) && a < |w.apps| && i <= |w.apps[a].preamble|
    ensures r.Some? ==> Shaped(w, r.value) && Longer(s, r.value) && Idle(r.value) <= Idle(s)
    decreases Idle(s), 2, |w.apps[a].preamble| - i
  {
    if i == |w.apps[a].preamble| then Some(s)
    else
      match SeekRequire(w, s, w.apps[a].preamble[i], Preamble(a, i))
      case None => None
      case Some(s1) => SeekPreambles(w, s1, a, i + 1)
  }

  // ---------------------------------------------------------------- without cycles

  // Where there is no cycle, this is what the process manager does.
  lemma {:induction false} SeekIsRequire(w: World, s: State, a: nat, cb: Callback)
    requires Valid(w, s) && Shaped(w, s) && a < |w.apps| && Linked(w, a, cb) && SeekRequire(w, s, a, cb).Some?
    ensures SeekRequire(w, s, a, cb).value == Require(w, s, a, cb)
    decreases w.rank[a], 6, 0
  {
    var s1 := Push(s, a, cb);
    if |s1.apps[a].callbacks| <= 1 { SeekIsCheck(w, s1, a); }
  }

  lemma {:induction false} SeekIsCheck(w: World, s: State, a: nat)
    requires Valid(w, s) && Shaped(w, s) && a < |w.apps| && SeekCheck(w, s, a).Some?
    ensures SeekCheck(w, s, a).value == CheckForRequire(w, s, a)
    decreases w.rank[a], 5, 0
  {
    if !w.apps[a].checker {
      SeekIsChecked(w, s, a, 0);
    } else if w.spawn(s.nextId) != 0 {
      SeekIsChecked(w, NewCheck(s, a, ForRequire).Log(CheckerFailed(a)), a, w.spawn(s.nextId));
    }
  }

  lemma {:induction false} SeekIsChecked(w: World, s: State, a: nat, error: int)
    requires Valid(w, s) && Shaped(w, s) && a < |w.apps| && SeekChecked(w, s, a, error).Some?
    ensures SeekChecked(w, s, a, error).value == Checked(w, s, a, error)
    decreases w.rank[a], 4, 0
  {
    var app := s.apps[a];
    if !(error != 0 && app.process.Some?) {
      var s1 := s.Put(a, app.(requireStartTime := s.now));
      SeekIsPreambles(w, Begin(w, s1, a), a, 0);
    }
  }

  lemma {:induction false} SeekIsPreambles(w: World, s: State, a: nat, i: nat)
    requires Valid(w, s) && Shaped(w, s) && a < |w.apps| && i <= |w.apps[a].preamble| && SeekPreambles(w, s, a, i).Some?
    ensures SeekPreambles(w, s, a, i).value == RequirePreambles(w, s, a, i)
    decreases w.rank[a], 2, |w.apps[a].preamble| - i
  {
    if i < |w.apps[a].preamble| {
      var p, cb := w.apps[a].preamble[i], Preamble(a, i);
      SeekIsRequire(w, s, p, cb);
      SeekIsPreambles(w, Require(w, s, p, cb), a, i + 1);
    }
  }

  // ---------------------------------------------------------------- nobody to begin with

  // Every app has a preamble, and none has a checker.
  ghost predicate Barren(w: World) {
    forall a :: 0 <= a < |w.apps| ==> w.apps[a].preamble != [] && !w.apps[a].checker
  }

  // Then there is a cycle.
  lemma {:induction false} BarrenIsCyclic(w: World)
    requires Barren(w) && w.apps != []
    ensures !w.Acyclic()
  {
    if w.Acyclic() { NoneLowest(w, 0); }
  }

  lemma {:induction false} NoneLowest(w: World, a: nat)
    requires Barren(w) && w.Acyclic() && a < |w.apps|
    ensures false
    decreases w.rank[a]
  {
    NoneLowest(w, w.apps[a].preamble[0]);
  }

  // No app has a process, and no checker, process or timer could report anything.
  ghost predicate Still(s: State) {
    && (forall a :: 0 <= a < |s.apps| ==> s.apps[a].process == None)
    && s.checks == map[] && s.processes == map[] && s.timers == map[]
  }

  predicate NobodyTold(h: History) {
    h.Then? ==> !h.entry.Invoked? && NobodyTold(h.past)
  }

  // An app without a checker that is asked for first is started.
  function Opened(w: World, s: State, a: nat, cb: Callback): State
    requires a < |s.apps| == |w.apps|
  {
    var s1 := Push(s, a, cb);
    Begin(w, s1.Put(a, s1.apps[a].(requireStartTime := s1.now)), a)
  }

  lemma {:induction false} FirstStarts(w: World, s: State, a: nat, cb: Callback)
    requires Shaped(w, s) && a < |w.apps| && !w.apps[a].checker && w.apps[a].preamble != []
    requires s.apps[a].callbacks == [] && s.apps[a].process == None
    ensures var r := Opened(w, s, a, cb);
      && Shaped(w, r) && Idle(r) < Idle(s)
      && SeekRequire(w, s, a, cb) == SeekPreambles(w, r, a, 0)
  {
    var s1 := Push(s, a, cb);
    var s2 := s1.Put(a, s1.apps[a].(requireStartTime := s1.now));
    LongerIdle(s.apps, s1.apps, |s.apps|);
    LongerIdle(s1.apps, s2.apps, |s.apps|);
    LongerIdle(s2.apps, Begin(w, s2, a).apps, |s.apps|);
    assert SeekRequire(w, s, a, cb) == SeekCheck(w, s1, a);
    assert SeekCheck(w, s1, a) == SeekChecked(w, s1, a, 0);
    assert SeekChecked(w, s1, a, 0) == SeekStart(w, s2, a);
  }

  lemma {:induction false} RequireStill(w: World, s: State, a: nat, cb: Callback)
    requires Shaped(w, s) && Barren(w) && a < |w.apps| && Still(s) && NobodyTold(s.history)
    ensures var r := SeekRequire(w, s, a, cb);
      r.Some? && Still(r.value) && NobodyTold(r.value.history) && cb in r.value.apps[a].callbacks
    decreases Idle(s), 0, 0
  {
    if s.apps[a].callbacks == [] {
      var s1 := Opened(w, s, a, cb);
      FirstStarts(w, s, a, cb);
      PreamblesStill(w, s1, a, 0);
      assert cb in s1.apps[a].callbacks;
    }
  }

  lemma {:induction false} PreamblesStill(w: World, s: State, a: nat, i: nat)
    requires Shaped(w, s) && Barren(w) && a < |w.apps| && i <= |w.apps[a].preamble| && Still(s) && NobodyTold(s.history)
    ensures var r := SeekPreambles(w, s, a, i); r.Some? && Still(r.value) && NobodyTold(r.value.history)
    decreases Idle(s), 2, |w.apps[a].preamble| - i
  {
    if i < |w.apps[a].preamble| {
      var p, cb := w.apps[a].preamble[i], Preamble(a, i);
      RequireStill(w, s, p, cb);
      PreamblesStill(w, SeekRequire(w, s, p, cb).value, a, i + 1);
    }
  }

  // The state after these apps have been required, by callers named by their positions.
  ghost function Asked(w: World, calls: seq<nat>): (r: Option<State>)
    requires Shaped(w, Initial(w)) && forall k :: 0 <= k < |calls| ==> calls[k] < |w.apps|
    ensures r.Some? ==> Shaped(w, r.value)
    decreases |calls|
  {
    if calls == [] then Some(Initial(w))
    else
      var n := |calls| - 1;
      match Asked(w, calls[..n])
      case None => None
      case Some(s) => SeekRequire(w, s.Log(Required(calls[n])), calls[n], User(n))
  }

  // Each caller is still queued.
  ghost predicate AllWait(s: State, calls: seq<nat>) {
    forall k :: 0 <= k < |calls| ==> calls[k] < |s.apps| && User(k) in s.apps[calls[k]].callbacks
  }

  lemma {:induction false} AskedIsStill(w: World, calls: seq<nat>)
    requires Barren(w) && Shaped(w, Initial(w)) && forall k :: 0 <= k < |calls| ==> calls[k] < |w.apps|
    ensures var r := Asked(w, calls); r.Some? && Still(r.value) && NobodyTold(r.value.history) && AllWait(r.value, calls)
    decreases |calls|
  {
    if calls != [] {
      var n := |calls| - 1;
      AskedIsStill(w, calls[..n]);
      var m := Asked(w, calls[..n]).value;
      AskOneMore(w, m, calls);
      assert Asked(w, calls) == SeekRequire(w, m.Log(Required(calls[n])), calls[n], User(n));
    }
  }

  lemma {:induction false} AskOneMore(w: World, s: State, calls: seq<nat>)
    requires Barren(w) && Shaped(w, s) && Still(s) && NobodyTold(s.history) && calls != []
    requires var n := |calls| - 1; calls[n] < |w.apps| && AllWait(s, calls[..n])
    ensures var n := |calls| - 1;
      var r := SeekRequire(w, s.Log(Required(calls[n])), calls[n], User(n));
      r.Some? && Still(r.value) && NobodyTold(r.value.history) && AllWait(r.value, calls)
  {
    var n := |calls| - 1;
    var s1 := s.Log(Required(calls[n]));
    RequireStill(w, s1, calls[n], User(n));
    var r := SeekRequire(w, s1, calls[n], User(n)).value;
    forall k | 0 <= k < n ensures calls[k] < |r.apps| && User(k) in r.apps[calls[k]].callbacks {
      assert calls[..n][k] == calls[k];
      StaysIn(s, r, calls[k], User(k));
    }
  }

  lemma {:induction false} StaysIn(s: State, r: State, a: nat, cb: Callback)
    requires Longer(s, r) && a < |s.apps| && cb in s.apps[a].callbacks
    ensures cb in r.apps[a].callbacks
  {
  }

  // With such a configuration every caller waits for ever: each is still queued, nobody was
  // ever told anything, and nothing but another call can happen.
  lemma {:induction false} EverybodyWaits(w: World, calls: seq<nat>)
    requires Barren(w) && Shaped(w, Initial(w)) && forall k :: 0 <= k < |calls| ==> calls[k] < |w.apps|
    ensures var r := Asked(w, calls);
      && r.Some? && NobodyTold(r.value.history)
      && (forall k :: 0 <= k < |calls| ==> User(k) in r.value.apps[calls[k]].callbacks)
      && (forall e :: Enabled(w, r.value, e) ==> e.UserRequires? || e.TimePasses?)
  {
    AskedIsStill(w, calls);
  }

  // The smallest input: two apps, each the preamble of the other.
  lemma {:induction false} TwoWaitForEachOther()
    ensures var w := World([AppConfig(false, 0, [1]), AppConfig(false, 0, [0])], [], _ => 0);
      && Barren(w) && Shaped(w, Initial(w)) && Asked(w, [0]).Some?
      && var s := Asked(w, [0]).value;
        && s.apps[0].callbacks == [User(0), Preamble(1, 0)] && s.apps[1].callbacks == [Preamble(0, 0)]
        && forall e :: Enabled(w, s, e) ==> e.UserRequires? || e.TimePasses?
  {
    var w := World([AppConfig(false, 0, [1]), AppConfig(false, 0, [0])], [], _ => 0);
    EverybodyWaits(w, [0]);
    var s0 := Initial(w).Log(Required(0));
    var s1 := Opened(w, s0, 0, User(0));
    var s2 := Opened(w, s1, 1, Preamble(0, 0));
    var s3 := Push(s2, 0, Preamble(1, 0));
    FirstStarts(w, s0, 0, User(0));
    FirstStarts(w, s1, 1, Preamble(0, 0));
    LastPreamble(w, s2, s3, 1);
    LastPreamble(w, s1, s3, 0);
    assert [0][..0] == [];
  }

  lemma {:induction false} LastPreamble(w: World, s: State, r: State, a: nat)
    requires Shaped(w, s) && Shaped(w, r) && a < |w.apps| && |w.apps[a].preamble| == 1
    requires SeekRequire(w, s, w.apps[a].preamble[0], Preamble(a, 0)) == Some(r)
    ensures SeekPreambles(w, s, a, 0) == Some(r)
  {
    assert SeekPreambles(w, r, a, 1) == Some(r);
  }
}
