/** What each function of the process manager does to the state. The upward half answers
    waiters and may launch processes of apps that were waiting; the downward half requires
    apps and their preambles. */
module ProcessSteps {
  import opened Common
  import opened ProcessState

  // ---------------------------------------------------------------- answering waiters

  // Everything ranked no higher than `a`, apart from `a` itself, is as it was.
  ghost predicate OnlyAbove(w: World, s: State, r: State, a: nat)
    requires Valid(w, s) && Valid(w, r) && a < |w.apps|
  {
    forall b :: 0 <= b < |w.apps| && b != a && w.rank[b] <= w.rank[a] ==> r.apps[b] == s.apps[b]
  }

  function Pop(s: State, a: nat): State
    requires a < |s.apps| && s.apps[a].callbacks != []
  {
    s.Put(a, s.apps[a].(callbacks := s.apps[a].callbacks[1..]))
  }

  // ClearCallbacks: every waiter of `a` is answered in turn.
  ghost function Clear(w: World, s: State, a: nat, error: int): (r: State)
    requires Valid(w, s) && a < |w.apps|
    ensures Valid(w, r) && OnlyAbove(w, s, r, a)
    ensures r.apps[a] == s.apps[a].(callbacks := [])
    decreases |w.apps| - w.rank[a], 1, |s.apps[a].callbacks|
  {
    if s.apps[a].callbacks == [] then s
    else Clear(w, Answer(w, Pop(s, a), a, s.apps[a].callbacks[0], error), a, error)
  }

  // A waiter of `a` is called; the continuation of CheckPreamble counts the answer.
  function Told(s: State, a: nat, cb: Callback, error: int): State
    requires a < |s.apps| && (cb.Preamble? ==> cb.parent < |s.apps|)
  {
    var s1 := s.Log(Invoked(a, cb, s.apps[a].process, error));
    match cb
    case User(_) => s1
    case Preamble(b, _) =>
      var app := s1.apps[b];
      s1.Put(b, app.(pendingPreamble := app.pendingPreamble - 1,
                     errorPreamble := if error != 0 then app.errorPreamble + 1 else app.errorPreamble))
  }

  ghost function Answer(w: World, s: State, a: nat, cb: Callback, error: int): (r: State)
    requires Valid(w, s) && a < |w.apps| && Linked(w, a, cb)
    ensures Valid(w, r) && OnlyAbove(w, s, r, a)
    ensures r.apps[a] == s.apps[a]
    decreases |w.apps| - w.rank[a], 0, 0
  {
    var s1 := Told(s, a, cb, error);
    if cb.Preamble? && s1.apps[cb.parent].pendingPreamble == 0
    then Launch(w, s1, cb.parent, s1.apps[cb.parent].errorPreamble)
    else s1
  }

  // The rest of Start, once all preambles have answered: the app is refused, or a process
  // and the timer that will check on it are created.
  function Launching(s: State, a: nat, error: int): State
    requires a < |s.apps|
  {
    if error != 0 then s.Log(Refused(a, error))
    else
      var p, t := s.nextId, s.nextId + 1;
      s.(processes := s.processes[p := a], timers := s.timers[t := a], nextId := s.nextId + 2)
       .Put(a, s.apps[a].(process := Some(p), checkerTimer := Some(t), checking := false))
       .Log(Spawned(a, p))
  }

  function NoProcess(s: State, a: nat): State
    requires a < |s.apps|
  {
    s.Put(a, s.apps[a].(process := None))
  }

  ghost function Launch(w: World, s: State, a: nat, error: int): (r: State)
    requires Valid(w, s) && a < |w.apps|
    ensures Valid(w, r) && OnlyAbove(w, s, r, a)
    decreases |w.apps| - w.rank[a], 2, 0
  {
    var s1 := Launching(s, a, error);
    if error != 0 then Clear(w, s1, a, error)
    else if w.spawn(s.nextId) == 0 then s1
    else Clear(w, NoProcess(s1, a), a, w.spawn(s.nextId))
  }

  // ---------------------------------------------------------------- requiring apps

  function Push(s: State, a: nat, cb: Callback): State
    requires a < |s.apps|
  {
    s.Put(a, s.apps[a].(callbacks := s.apps[a].callbacks + [cb]))
     .Log(Registered(a, cb, s.apps[a].callbacks != [] || Quiet(s, a)))
  }

  ghost function Require(w: World, s: State, a: nat, cb: Callback): (r: State)
    requires Valid(w, s) && a < |w.apps| && Linked(w, a, cb)
    ensures Valid(w, r)
    decreases w.rank[a], 6, 0
  {
    var s1 := Push(s, a, cb);
    if |s1.apps[a].callbacks| > 1 then s1 else CheckForRequire(w, s1, a)
  }

  function NewCheck(s: State, a: nat, use: Use): State {
    s.(checks := s.checks[s.nextId := Check(a, use)], nextId := s.nextId + 1)
  }

  // Check, with Require waiting for the outcome. A checker that does not start is reported
  // at once, and again when its handle is closed.
  ghost function CheckForRequire(w: World, s: State, a: nat): (r: State)
    requires Valid(w, s) && a < |w.apps|
    ensures Valid(w, r)
    decreases w.rank[a], 5, 0
  {
    if !w.apps[a].checker then Checked(w, s, a, 0)
    else
      var s1, e := NewCheck(s, a, ForRequire), w.spawn(s.nextId);
      if e == 0 then s1 else Checked(w, s1.Log(CheckerFailed(a)), a, e)
  }

  // Require is told the outcome of its check.
  ghost function Checked(w: World, s: State, a: nat, error: int): (r: State)
    requires Valid(w, s) && a < |w.apps|
    ensures Valid(w, r)
    decreases w.rank[a], 4, 0
  {
    var app := s.apps[a];
    if error == 0 && (w.apps[a].checker || app.process.Some?) then Clear(w, s, a, 0)
    else if error != 0 && app.process.Some? then
      s.Put(a, app.(restart := true)).Log(Killed(a, app.process.value))
    else Start(w, s.Put(a, app.(requireStartTime := s.now)), a)
  }

  function Begin(w: World, s: State, a: nat): State
    requires a < |s.apps| == |w.apps|
  {
    s.Put(a, s.apps[a].(errorPreamble := 0, pendingPreamble := |w.apps[a].preamble|))
     .Log(Started(a, s.apps[a].pendingPreamble))
  }

  ghost function Start(w: World, s: State, a: nat): (r: State)
    requires Valid(w, s) && a < |w.apps|
    ensures Valid(w, r)
    decreases w.rank[a], 3, 0
  {
    var s1 := Begin(w, s, a);
    if w.apps[a].preamble == [] then Launch(w, s1, a, 0) else RequirePreambles(w, s1, a, 0)
  }

  // The loop of CheckPreamble from position i on.
  ghost function RequirePreambles(w: World, s: State, a: nat, i: nat): (r: State)
    requires Valid(w, s) && a < |w.apps| && i <= |w.apps[a].preamble|
    ensures Valid(w, r)
    decreases w.rank[a], 2, |w.apps[a].preamble| - i
  {
    if i == |w.apps[a].preamble| then s
    else RequirePreambles(w, Require(w, s, w.apps[a].preamble[i], Preamble(a, i)), a, i + 1)
  }

  // ---------------------------------------------------------------- events

  function CloseTimer(s: State, a: nat, t: nat): State
    requires a < |s.apps|
  {
    s.(timers := s.timers - {t}).Put(a, s.apps[a].(checkerTimer := None))
  }

  function SetChecking(s: State, a: nat, on: bool): State
    requires a < |s.apps|
  {
    s.Put(a, s.apps[a].(checking := on))
  }

  // Whether the outcome of a timer's check completes the start of `a`.
  predicate Completes(w: World, s: State, a: nat, error: int)
    requires a < |s.apps| == |w.apps|
  {
    var limit := w.apps[a].maxStartTime;
    error == 0 || error == -ENOENT || (limit > 0 && s.now - s.apps[a].requireStartTime > limit)
  }

  // The outcome of a check made by start timer t.
  ghost function TimerChecked(w: World, s: State, a: nat, t: nat, error: int): (r: State)
    requires Valid(w, s) && a < |w.apps|
    ensures Valid(w, r)
  {
    SetChecking(if Completes(w, s, a, error) then Clear(w, CloseTimer(s, a, t), a, error) else s, a, false)
  }

  // Check, with start timer t waiting for the outcome.
  ghost function CheckForTimer(w: World, s: State, a: nat, t: nat): (r: State)
    requires Valid(w, s) && a < |w.apps|
    ensures Valid(w, r)
  {
    if !w.apps[a].checker then TimerChecked(w, s, a, t, 0)
    else
      var s1, e := NewCheck(s, a, ForTimer(t)), w.spawn(s.nextId);
      if e == 0 then s1 else TimerChecked(w, s1.Log(CheckerFailed(a)), a, t, e)
  }

  datatype Event =
    | UserRequires(app: nat, id: nat)
    | CheckerExits(check: nat, status: int, signal: int)
    | ProcessExits(process: nat, status: int, signal: int)
    | TimerTicks(timer: nat)
    | TimePasses(ms: nat)

  // The events the environment can produce: calls for configured apps, and reports from
  // handles that are still open.
  predicate Enabled(w: World, s: State, e: Event) {
    match e
    case UserRequires(a, _) => a < |w.apps|
    case CheckerExits(h, _, _) => h in s.checks
    case ProcessExits(h, _, _) => h in s.processes
    case TimerTicks(h) => h in s.timers
    case TimePasses(_) => true
  }

  function ExitSeen(s: State, p: nat, status: int, signal: int): State
    requires p in s.processes && s.processes[p] < |s.apps|
  {
    var a := s.processes[p];
    NoProcess(s.(processes := s.processes - {p}).Log(ProcessExited(a, p, status, signal, s.apps[a].restart)), a)
  }

  function NoRestart(s: State, a: nat): State
    requires a < |s.apps|
  {
    s.Put(a, s.apps[a].(restart := false))
  }

  ghost function Exited(w: World, s: State, p: nat, status: int, signal: int): (r: State)
    requires Valid(w, s) && p in s.processes
    ensures Valid(w, r)
  {
    var a, s1, outcome := s.processes[p], ExitSeen(s, p, status, signal), Outcome(status, signal);
    if outcome == 0 then s1
    else if s.apps[a].restart then Start(w, NoRestart(s1, a), a)
    else if !w.apps[a].checker then Clear(w, s1, a, Int32(outcome))
    else s1
  }

  function CheckSeen(s: State, h: nat, status: int, signal: int): State
    requires h in s.checks
  {
    s.(checks := s.checks - {h}).Log(CheckExited(s.checks[h].app, status, signal))
  }

  ghost function CheckReported(w: World, s: State, h: nat, status: int, signal: int): (r: State)
    requires Valid(w, s) && h in s.checks
    ensures Valid(w, r)
  {
    var a, s1, error := s.checks[h].app, CheckSeen(s, h, status, signal), Int32(Outcome(status, signal));
    match s.checks[h].use
    case ForRequire => Checked(w, s1, a, error)
    case ForTimer(t) => TimerChecked(w, s1, a, t, error)
  }

  ghost function Tick(w: World, s: State, t: nat): (r: State)
    requires Valid(w, s) && t in s.timers
    ensures Valid(w, r)
  {
    var a := s.timers[t];
    var s1 := s.Log(Ticked(a));
    if s.apps[a].callbacks == [] then s1.(timers := s1.timers - {t})
    else if s.apps[a].checking then s1
    else SetChecking(CheckForTimer(w, s1, a, t), a, true)
  }

  ghost function Step(w: World, s: State, e: Event): (r: State)
    requires Valid(w, s) && Enabled(w, s, e)
    ensures Valid(w, r)
  {
    match e
    case UserRequires(a, id) => Require(w, s.Log(Required(a)), a, User(id))
    case CheckerExits(h, status, signal) => CheckReported(w, s, h, status, signal)
    case ProcessExits(h, status, signal) => Exited(w, s, h, status, signal)
    case TimerTicks(h) => Tick(w, s, h)
    case TimePasses(ms) => s.(now := s.now + ms).Log(Passed(ms))
  }
}
