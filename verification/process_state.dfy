/** The data of the process manager: the configuration it is given, the state it keeps for
    each app, and the record of what it has done. */
module ProcessState {
  import opened Common

  const ENOENT := 2

  // What the manager reads of one configured app. An app is named by its position in the
  // configuration.
  datatype AppConfig = AppConfig(checker: bool, maxStartTime: int, preamble: seq<nat>)

  // `rank` witnesses that the preamble relation has no cycle. `spawn(h)` is the error with
  // which starting the child process of handle h fails, 0 when it starts.
  datatype World = World(apps: seq<AppConfig>, rank: seq<nat>, spawn: nat -> int) {
    predicate Acyclic() {
      && |rank| == |apps|
      && (forall a :: 0 <= a < |apps| ==> rank[a] < |apps|)
      && (forall a, i :: 0 <= a < |apps| && 0 <= i < |apps[a].preamble| ==>
        apps[a].preamble[i] < |apps| && rank[apps[a].preamble[i]] < rank[a])
    }
  }

  // A waiter: a caller's own function, or the continuation with which `parent` waits for
  // the app in position `slot` of its preamble.
  datatype Callback = User(id: nat) | Preamble(parent: nat, slot: nat)

  datatype App = App(process: Option<nat>, callbacks: seq<Callback>, restart: bool,
                     pendingPreamble: int, errorPreamble: int, requireStartTime: nat,
                     checkerTimer: Option<nat>, checking: bool)

  // Who is told the outcome of a checker run.
  datatype Use = ForRequire | ForTimer(timer: nat)
  datatype Check = Check(app: nat, use: Use)

  // One record of the history. The first five open an event of the environment.
  datatype Entry =
    | Required(app: nat)
    | CheckExited(app: nat, status: int, signal: int)
    | ProcessExited(app: nat, child: nat, status: int, signal: int, killed: bool)
    | Ticked(app: nat)
    | Passed(ms: nat)
    | Registered(app: nat, callback: Callback, quiet: bool)
    | Invoked(app: nat, callback: Callback, process: Option<nat>, error: int)
    | Started(app: nat, pending: int)
    | Refused(app: nat, error: int)
    | Spawned(app: nat, child: nat)
    | CheckerFailed(app: nat)
    | Killed(app: nat, child: nat)

  datatype History = Empty | Then(past: History, entry: Entry)

  // `checks` are the checker runs whose exit is still to be reported, `processes` the app
  // processes whose exit is still to be reported, `timers` the start timers not yet closed.
  datatype State = State(apps: seq<App>, checks: map<nat, Check>, processes: map<nat, nat>,
                         timers: map<nat, nat>, nextId: nat, now: nat, history: History)
  {
    function Put(a: nat, app: App): State
      requires a < |apps|
    {
      this.(apps := apps[a := app])
    }

    function Log(e: Entry): State {
      this.(history := Then(history, e))
    }
  }

  function Initial(w: World): State {
    State(seq(|w.apps|, _ => App(None, [], false, 0, 0, 0, None, false)), map[], map[], map[], 0, 0, Empty)
  }

  // A continuation waits on the app its slot names.
  predicate Linked(w: World, a: nat, cb: Callback) {
    cb.Preamble? ==>
      && cb.parent < |w.apps|
      && cb.slot < |w.apps[cb.parent].preamble|
      && w.apps[cb.parent].preamble[cb.slot] == a
  }

  ghost predicate Valid(w: World, s: State) {
    && w.Acyclic()
    && |s.apps| == |w.apps|
    && (forall a, k :: 0 <= a < |s.apps| && 0 <= k < |s.apps[a].callbacks| ==> Linked(w, a, s.apps[a].callbacks[k]))
    && (forall h :: h in s.checks ==> s.checks[h].app < |w.apps| && h < s.nextId)
    && (forall h :: h in s.processes ==> s.processes[h] < |w.apps| && h < s.nextId)
    && (forall h :: h in s.timers ==> s.timers[h] < |w.apps| && h < s.nextId)
  }

  // No start timer of `a` is open and no process of `a` but the current one has yet to exit.
  predicate Quiet(s: State, a: nat)
    requires a < |s.apps|
  {
    && (forall t :: t in s.timers ==> s.timers[t] != a)
    && (forall p :: p in s.processes && s.processes[p] == a ==> s.apps[a].process == Some(p))
  }

  // The value handed on for an exit: the status, or the signal when the status is 0,
  // converted to a 32-bit int.
  function Outcome(status: int, signal: int): int {
    if status != 0 then status else signal
  }

  function Int32(x: int): int {
    var m := x % 0x1_0000_0000;
    if m < 0x8000_0000 then m else m - 0x1_0000_0000
  }
}
