/** What the history says about each app, and the relation every cascade keeps between the
    history and the state. */
module ProcessBooks {
  import opened Common
  import opened ProcessState
  import opened ProcessSteps

  // ---------------------------------------------------------------- reading the history

  function RegisteredOn(h: History, a: nat): seq<Callback> {
    match h
    case Empty => []
    case Then(past, e) =>
      RegisteredOn(past, a) + if e.Registered? && e.app == a then [e.callback] else []
  }

  function InvokedOn(h: History, a: nat): seq<Callback> {
    match h
    case Empty => []
    case Then(past, e) =>
      InvokedOn(past, a) + if e.Invoked? && e.app == a then [e.callback] else []
  }

  predicate HasStarted(h: History, a: nat) {
    match h
    case Empty => false
    case Then(past, e) => (e.Started? && e.app == a) || HasStarted(past, a)
  }

  // The preamble slots of `a` answered since `a` was last started, and how many of them
  // answered with an error.
  function Answered(h: History, a: nat): multiset<nat> {
    match h
    case Empty => multiset{}
    case Then(past, e) =>
      if e.Started? && e.app == a then multiset{}
      else if e.Invoked? then Answered(past, a) + SlotOf(e.callback, a)
      else Answered(past, a)
  }

  function Failures(h: History, a: nat): nat {
    match h
    case Empty => 0
    case Then(past, e) =>
      if e.Started? && e.app == a then 0
      else if e.Invoked? && e.callback.Preamble? && e.callback.parent == a && e.error != 0 then Failures(past, a) + 1
      else Failures(past, a)
  }

  // How often the continuation of Start has run for `a` since `a` was last started.
  function Launches(h: History, a: nat): nat {
    match h
    case Empty => 0
    case Then(past, e) =>
      if e.Started? && e.app == a then 0
      else if (e.Spawned? || e.Refused?) && e.app == a then Launches(past, a) + 1
      else Launches(past, a)
  }

  // The event of the environment being handled.
  function Cause(h: History): Option<Entry> {
    match h
    case Empty => None
    case Then(past, e) =>
      if e.Required? || e.CheckExited? || e.ProcessExited? || e.Ticked? || e.Passed? then Some(e) else Cause(past)
  }

  // That event is the exit of a checker of `a` with a zero outcome.
  predicate CheckerSucceeded(h: History, a: nat) {
    var c := Cause(h);
    c.Some? && c.value.CheckExited? && c.value.app == a && Int32(Outcome(c.value.status, c.value.signal)) == 0
  }

  // No app was started while it still waited for its preambles.
  predicate Undisturbed(h: History) {
    match h
    case Empty => true
    case Then(past, e) => (e.Started? ==> e.pending <= 0) && Undisturbed(past)
  }

  // ---------------------------------------------------------------- slots in the queues

  function SlotOf(cb: Callback, a: nat): multiset<nat> {
    if cb.Preamble? && cb.parent == a then multiset{cb.slot} else multiset{}
  }

  function SlotsIn(q: seq<Callback>, a: nat): multiset<nat> {
    if q == [] then multiset{} else SlotOf(q[0], a) + SlotsIn(q[1..], a)
  }

  // The slots of `a` still queued on the first n apps.
  function Queued(apps: seq<App>, n: nat, a: nat): multiset<nat>
    requires n <= |apps|
  {
    if n == 0 then multiset{} else Queued(apps, n - 1, a) + SlotsIn(apps[n - 1].callbacks, a)
  }

  function Slots(n: nat): multiset<nat> {
    if n == 0 then multiset{} else Slots(n - 1) + multiset{n - 1}
  }

  function Accounted(s: State, a: nat): multiset<nat> {
    Answered(s.history, a) + Queued(s.apps, |s.apps|, a)
  }

  lemma {:induction false} MultisetCancel(x: multiset<nat>, y: multiset<nat>, z: multiset<nat>)
    requires x + z == y + z
    ensures x == y
  {
    assert x == (x + z) - z;
    assert y == (y + z) - z;
  }

  lemma {:induction false} SlotsSize(n: nat)
    ensures |Slots(n)| == n
  {
    if n > 0 { SlotsSize(n - 1); }
  }

  lemma {:induction false} SlotsInAppend(q: seq<Callback>, cb: Callback, a: nat)
    ensures SlotsIn(q + [cb], a) == SlotsIn(q, a) + SlotOf(cb, a)
  {
    if q == [] {
      assert [cb][1..] == [];
    } else {
      assert (q + [cb])[1..] == q[1..] + [cb];
      SlotsInAppend(q[1..], cb, a);
    }
  }

  lemma {:induction false} QueuedSame(p: seq<App>, q: seq<App>, n: nat, a: nat)
    requires n <= |p| == |q| && forall b :: 0 <= b < n ==> q[b].callbacks == p[b].callbacks
    ensures Queued(p, n, a) == Queued(q, n, a)
  {
    if n > 0 { QueuedSame(p, q, n - 1, a); }
  }

  lemma {:induction false} MultisetSwap(x: multiset<nat>, p: multiset<nat>, y: multiset<nat>, q: multiset<nat>, z: multiset<nat>)
    requires x + p == y + q
    ensures (x + z) + p == (y + z) + q
  {
    assert (x + z) + p == (x + p) + z;
    assert (y + z) + q == (y + q) + z;
  }

  lemma {:induction false} SumSwap(x: multiset<nat>, p: multiset<nat>, q: multiset<nat>)
    ensures (x + p) + q == (x + q) + p
  {
  }

  lemma {:induction false} QueuedPut(apps: seq<App>, n: nat, b: nat, app: App, a: nat)
    requires b < n <= |apps|
    ensures Queued(apps[b := app], n, a) + SlotsIn(apps[b].callbacks, a)
         == Queued(apps, n, a) + SlotsIn(app.callbacks, a)
  {
    var now := apps[b := app];
    assert Queued(now, n, a) == Queued(now, n - 1, a) + SlotsIn(now[n - 1].callbacks, a);
    assert Queued(apps, n, a) == Queued(apps, n - 1, a) + SlotsIn(apps[n - 1].callbacks, a);
    if b == n - 1 {
      QueuedSame(apps, now, n - 1, a);
      SumSwap(Queued(apps, n - 1, a), SlotsIn(app.callbacks, a), SlotsIn(apps[b].callbacks, a));
    } else {
      QueuedPut(apps, n - 1, b, app, a);
      MultisetSwap(Queued(now, n - 1, a), SlotsIn(apps[b].callbacks, a), Queued(apps, n - 1, a),
                   SlotsIn(app.callbacks, a), SlotsIn(apps[n - 1].callbacks, a));
    }
  }

  // ---------------------------------------------------------------- the relation

  // All preambles of `a` have answered and the continuation has not run; in an undisturbed
  // history each preamble has answered exactly once.
  ghost predicate AllAnswered(w: World, h: History, a: nat)
    requires a < |w.apps|
  {
    var n := |w.apps[a].preamble|;
    && |Answered(h, a)| == n
    && Launches(h, a) == 0
    && (Undisturbed(h) ==> Answered(h, a) == Slots(n))
  }

  // What justifies an entry, given all that came before it.
  ghost predicate Justified(w: World, past: History, e: Entry) {
    match e
    case Invoked(a, _, _, error) =>
      a < |w.apps| && w.apps[a].checker && error == 0 ==> CheckerSucceeded(past, a)
    case Spawned(a, _) => a < |w.apps| ==> AllAnswered(w, past, a) && Failures(past, a) == 0
    case Refused(a, error) => a < |w.apps| ==> AllAnswered(w, past, a) && Failures(past, a) == error != 0
    case _ => true
  }

  ghost predicate JustifiedHistory(w: World, h: History) {
    h.Then? ==> Justified(w, h.past, h.entry) && JustifiedHistory(w, h.past)
  }

  ghost predicate Balanced(s: State, a: nat)
    requires a < |s.apps|
  {
    RegisteredOn(s.history, a) == InvokedOn(s.history, a) + s.apps[a].callbacks
  }

  ghost predicate Counted(w: World, s: State, a: nat)
    requires a < |s.apps| == |w.apps|
  {
    var app, h := s.apps[a], s.history;
    && app.errorPreamble == Failures(h, a)
    && app.pendingPreamble == (if HasStarted(h, a) then |w.apps[a].preamble| else 0) - |Answered(h, a)|
    && Launches(h, a) == if HasStarted(h, a) && app.pendingPreamble <= 0 then 1 else 0
  }

  // The state of `a` when its continuation is about to run.
  ghost predicate Ready(w: World, s: State, a: nat)
    requires a < |s.apps| == |w.apps|
  {
    var app, h := s.apps[a], s.history;
    && HasStarted(h, a)
    && app.errorPreamble == Failures(h, a)
    && app.pendingPreamble == 0 == |w.apps[a].preamble| - |Answered(h, a)|
    && Launches(h, a) == 0
  }

  // No slot is accounted for twice, nor would the slot of cb be.
  ghost predicate Fits(w: World, s: State, a: nat)
    requires a < |w.apps|
  {
    Undisturbed(s.history) ==> Accounted(s, a) <= Slots(|w.apps[a].preamble|)
  }

  ghost predicate FitsWith(w: World, s: State, a: nat, cb: Callback)
    requires a < |w.apps|
  {
    Undisturbed(s.history) ==> Accounted(s, a) + SlotOf(cb, a) <= Slots(|w.apps[a].preamble|)
  }

  ghost predicate Books(w: World, s: State)
    requires |s.apps| == |w.apps|
  {
    && JustifiedHistory(w, s.history)
    && forall b :: 0 <= b < |s.apps| ==> Balanced(s, b) && Counted(w, s, b)
  }

  ghost predicate BooksBut(w: World, s: State, a: nat)
    requires |s.apps| == |w.apps|
  {
    && JustifiedHistory(w, s.history)
    && (forall b :: 0 <= b < |s.apps| ==> Balanced(s, b))
    && (forall b :: 0 <= b < |s.apps| && b != a ==> Counted(w, s, b))
  }

  ghost predicate AllFit(w: World, s: State) {
    forall b :: 0 <= b < |w.apps| ==> Fits(w, s, b)
  }

  ghost predicate AllFitWith(w: World, s: State, cb: Callback) {
    forall b :: 0 <= b < |w.apps| ==> FitsWith(w, s, b, cb)
  }

  ghost predicate SameApp(s: State, r: State, b: nat) {
    && Accounted(r, b) == Accounted(s, b)
    && HasStarted(r.history, b) == HasStarted(s.history, b)
  }

  ghost predicate MoreApp(s: State, r: State, b: nat, cb: Callback) {
    && Accounted(r, b) == Accounted(s, b) + SlotOf(cb, b)
    && HasStarted(r.history, b) == HasStarted(s.history, b)
  }

  // r accounts for the slots s accounts for; nothing was started.
  ghost predicate SameAccounts(w: World, s: State, r: State) {
    && Cause(r.history) == Cause(s.history)
    && Undisturbed(r.history) == Undisturbed(s.history)
    && (forall b :: 0 <= b < |w.apps| ==> SameApp(s, r, b))
  }

  // r also accounts for the slot of cb.
  ghost predicate MoreAccounts(w: World, s: State, r: State, cb: Callback) {
    && Cause(r.history) == Cause(s.history)
    && Undisturbed(r.history) == Undisturbed(s.history)
    && (forall b :: 0 <= b < |w.apps| ==> MoreApp(s, r, b, cb))
  }

  // Steps that leave queues and preamble counts alone.
  ghost predicate Untouched(s: State, r: State) {
    && |s.apps| == |r.apps|
    && (forall b :: 0 <= b < |s.apps| ==>
      && r.apps[b].callbacks == s.apps[b].callbacks
      && r.apps[b].pendingPreamble == s.apps[b].pendingPreamble
      && r.apps[b].errorPreamble == s.apps[b].errorPreamble)
  }

  predicate Remark(e: Entry) {
    || e.Required? || e.CheckExited? || e.ProcessExited? || e.Ticked? || e.Passed?
    || e.CheckerFailed? || e.Killed?
  }

  ghost predicate Remarked(s: State, r: State) {
    r.history == s.history || (r.history.Then? && r.history.past == s.history && Remark(r.history.entry))
  }

  // Only registrations, answers and starts change what the history says of the preambles.
  lemma {:induction false} ReadsPast(h: History, e: Entry, b: nat)
    requires !e.Registered? && !e.Invoked? && !e.Started?
    ensures RegisteredOn(Then(h, e), b) == RegisteredOn(h, b)
    ensures InvokedOn(Then(h, e), b) == InvokedOn(h, b)
    ensures Answered(Then(h, e), b) == Answered(h, b)
    ensures Failures(Then(h, e), b) == Failures(h, b)
    ensures HasStarted(Then(h, e), b) == HasStarted(h, b)
    ensures !e.Refused? && !e.Spawned? ==> Launches(Then(h, e), b) == Launches(h, b)
  {
  }

  lemma {:induction false} UnaffectedApp(w: World, s: State, r: State, b: nat)
    requires b < |s.apps| == |w.apps| && Untouched(s, r) && Remarked(s, r)
    ensures SameApp(s, r, b)
    ensures Balanced(s, b) ==> Balanced(r, b)
    ensures Counted(w, s, b) ==> Counted(w, r, b)
  {
    QueuedSame(s.apps, r.apps, |s.apps|, b);
    if r.history != s.history { ReadsPast(s.history, r.history.entry, b); }
  }

  lemma {:induction false} Unaffected(w: World, s: State, r: State)
    requires |s.apps| == |w.apps| && Untouched(s, r) && Remarked(s, r)
    ensures Books(w, s) ==> Books(w, r)
    ensures forall a :: 0 <= a < |w.apps| && BooksBut(w, s, a) ==> BooksBut(w, r, a)
    ensures forall b :: 0 <= b < |w.apps| ==> SameApp(s, r, b)
    ensures Undisturbed(r.history) == Undisturbed(s.history)
  {
    forall b | 0 <= b < |w.apps|
      ensures SameApp(s, r, b)
      ensures Balanced(s, b) ==> Balanced(r, b)
      ensures Counted(w, s, b) ==> Counted(w, r, b)
    {
      UnaffectedApp(w, s, r, b);
    }
  }
}
