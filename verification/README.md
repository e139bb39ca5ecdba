# Nexer, verified

Nexer forwards TCP connections and starts, checks and restarts the processes ("apps") its
upstreams need. This project models its event-driven cores in Dafny 4.11 and proves what they
keep over every run:

- **Process manager** (`process_*.dfy`): callers require apps; an app first requires the apps of
  its preamble; checkers, process exits and timers answer the waiters, some of them at once, some
  later. `process_steps.dfy` says what each function does to the state, `process_manager.dfy` is
  the object whose handlers do it in place (the loop over a live vector of callbacks included), and
  the other files prove what every run keeps, what each event does as callers see it
  (`process_effects.dfy`), and that every waiter can be told (`process_liveness.dfy`).
- **TCP forwarder** (`forwarder*.dfy`): two byte pipes with swapped buffers between two sockets, or
  an echo in which both sides are one socket and share one pair of buffers. `forwarder.dfy` has the
  buffers, clients and sockets on the heap; a write keeps a pointer to its buffer, not a copy.
- **Connecting with retries** (`connector*.dfy`, `function_list.dfy`) and **proxy sessions** (`proxy*.dfy`), the latter
  built from the machines of the forwarder and of the retry loop: an upstream socket is a client
  handle of the loop. `sessions.dfy` joins the proxy with the process manager.
- **Fixed-size memory pool** (`memory_pool.dfy`): two intrusive doubly linked lists on the heap.
- **URLs** (`url.dfy`, `url_reading.dfy`, `url_decoding.dfy`), **string buffer** (`string_buffer.dfy`) and
  **configured apps** (`config*.dfy`).

The event loop is a source of events. A run is any sequence of events each of which was possible
when it came (`Enabled`), and the `...Runs` lemmas are about all of them. Each class method states its
whole effect as a step of the machine, and the machine's properties are lemmas. The effects of single
events are stated for every state that a run can reach: those in which `Noted` or `Sound` holds, which
`RunNoted` and `RunSound` prove of all runs.

Some promises turn out to have limits, each stated exactly:

- A waiter of the process manager can be left for ever: a process that is killed so that it can be
  restarted but then exits with status 0 is not restarted (`src/process_manager.cc:46`). Where
  preambles form no cycle, waiters are always served if and only if this never happens to a restart
  they rely on (`NoStuckWaiter`, `RestartCanBeLost`). Until it does, all of them can be told
  (`EveryWaiterCanBeTold`).
- A configuration whose preambles form a cycle is accepted. Requiring an app of it still ends, but
  where every app has a preamble and none a checker, every caller waits for ever with nothing due
  (`EverybodyWaits`, `TwoWaitForEachOther`).
- Every process still to exit is the one its app knows, if and only if each was created after the
  last of its app had exited and could be run (`ProcessesAreKnown`): the exit of any other makes the
  app forget the one it knows.
- The count of awaited preambles is right after a start if and only if the app was not already
  waiting for preambles (`StartGatesExactly`), and over a run all counts are right after every
  event if and only if no app is started while it waits (`CountsAlwaysRight`). A checker that
  cannot be run is reported twice, so it can start an app twice (`CountCanBeWrong`).
- The URL parser reads host and port only after a scheme's `://`. What it makes of a text that
  begins with `://` has an authority but no scheme, and recomposed as section 5.3 of RFC 3986 asks
  it reads as a path. Normalisation is idempotent on exactly the texts given in
  `NormalisationIdempotent`.
- A formatted write that fails leaves its text in the tail of the string buffer, which is zero after
  it exactly when that text is (`Printf`); a later `Resize` can bring it into the contents
  (`LeftoverText`). `Resize` and `overflow` ignore a failed reserve and leave the put pointer past
  the end of the array exactly when there was no room (`PastTheEnd`).

## Model

| member | source | states |
|---|---|---|
| ProcessRuns.CallbacksConserved | src/process_manager.cc:93-107 | in every run, the callbacks registered on an app are those invoked so far, in the same order and once each, followed by those still queued |
| ProcessRuns.SuccessIsSound | src/process_manager.cc:34-69 | in every run, an app with a checker reports 0 to a waiter only while the exit of a checker of that same app with a zero outcome is being handled |
| ProcessRuns.ZeroOutcome | src/process_manager.cc:178-183 | for outcomes that fit an int, a zero outcome is status 0 without a signal |
| ProcessRuns.ClearTellsAll | src/process_manager.cc:93-98 | clearing the callbacks of an app tells all of them the same error in order, and adds no other answer for that app |
| ProcessRuns.AnswerIsOnce | src/process_manager.cc:143-154 | whatever follows from answering one waiter, it is answered once and nobody else ranked up to its app is |
| ProcessRuns.LaunchedOncePerStart | src/process_manager.cc:132-156 | since the last start of an app, the pending count is the number of preambles less the answers, and its continuation has run once when the answers are complete and not before |
| ProcessRuns.SpawnedAfterPreambles | src/process_manager.cc:20-32 | a process is created only when as many answers as there are preambles came in, all 0; one from each preamble unless the app was started while waiting |
| ProcessRuns.RefusedWithCount | src/process_manager.cc:22-26 | a start is refused with exactly the number of failed preambles, once all of them answered |
| ProcessRefusals.WaitersGetCount | src/process_manager.cc:22-26 | in every run, when a start is refused, all that wait for the app are the next to be told, in order, and each is told exactly the number of failed preambles |
| ProcessRefusals.RefusalTellsCount | src/process_manager.cc:20-26 | complete preambles with failures add to the answers exactly one for each waiter, the number of failures |
| ProcessRefusals.WaitersGetError | src/process_manager.cc:34-39 | in every run, when a created process cannot be run, all that wait for the app are the next to be told, and are told its error |
| ProcessRefusals.WaitersGetStatus | src/process_manager.cc:41-53 | in every run, when a process of an app without a checker that was not killed for a restart fails or ends by a signal, all that wait for the app are the next to be told, and are told its status, or the signal if the status is 0, as an int |
| ProcessNotes.RunNoted | src/process_manager.cc:20-130 | in every run, restart says that a process of the app was killed and none has failed since, process is the one created last that could be run and has not exited, the start time is when a check last started the app, and only apps with checkers are being checked |
| ProcessNotes.KilledIsRestarted | src/process_manager.cc:46-49 | in every run, when the process of an app fails or ends by a signal after it was killed, the next thing recorded is that the app is started |
| ProcessNotes.KillsItsOwn | src/process_manager.cc:110-128 | in every run, the process killed is the one created last, able to run and not exited; an app that has such a process is never started |
| ProcessNotes.ToldOfProcess | src/process_manager.cc:93-98 | in every run, whoever is called is given that process, or none |
| ProcessNotes.SoughtInOrder | src/process_manager.cc:143-145 | in every run, the preambles of an app are required in the order in which they are configured |
| ProcessNotes.ClockIsElapsed | src/process_manager.cc:59 | the clock of a run is the time that its events let pass |
| ProcessEffects.TimerTellsExactly | src/process_manager.cc:58-69 | in every run, a start timer whose check has ended tells all waiters its error and is closed exactly when the error is 0 or -2, or when a positive limit is less than the time that has passed since a check last started the app; otherwise nobody is told and the timer goes on |
| ProcessEffects.TickTells | src/process_manager.cc:71-80 | a tick tells all that wait for an app without a checker 0 and closes the timer; a checker that cannot be run counts as a check with its error and is still to report its exit |
| ProcessEffects.TickAsks | src/process_manager.cc:75-79 | a tick runs the checker once: until it has reported, another tick of the timer does nothing |
| ProcessEffects.TickEnds | src/process_manager.cc:72-74 | a tick with nobody waiting only closes the timer |
| ProcessEffects.FailedExitRestarts | src/process_manager.cc:46-49 | after a kill, the failure of the process is followed by the start of its app, even with nobody waiting |
| ProcessEffects.FailedExitTells | src/process_manager.cc:50-53 | without a kill, it tells all waiters the status or the signal, or nobody anything if there is a checker |
| ProcessEffects.CleanExitOnly | src/process_manager.cc:41-46 | a clean exit tells nobody and starts nothing, kill or no kill |
| ProcessEffects.Int32Wraps | src/process_manager.cc:43-51 | what waiters are told of an exit fits an int and differs from the status by a multiple of 2^32 |
| ProcessEffects.FirstCaller | src/process_manager.cc:100-118 | the first caller of an app without a checker is told 0 if the app has a process; otherwise the app is started |
| ProcessEffects.FirstCallerAsks | src/process_manager.cc:109-129 | the first caller of an app with a checker leaves its check under way; if the checker cannot be run, the process of the app is killed at once, or the app is started if it has none |
| ProcessEffects.LaterCaller | src/process_manager.cc:100-107 | a caller that finds others waiting only joins them |
| ProcessEffects.CheckerReports | src/process_manager.cc:109-129 | a check that succeeds tells all waiters 0; one that fails has the process of the app killed while they go on waiting, or starts the app if it has none |
| ProcessEffects.LaunchOpens | src/process_manager.cc:20-88 | a start with complete preambles is refused if one has failed, and otherwise creates a process and a timer, even if the process cannot be run |
| ProcessTrail.StepTrail | src/process_manager.cc:20-188 | what follows from an event is a cascade: no caller asks, nothing is reported from outside, and no time passes in it |
| ProcessRefusals.LaunchHonest | src/process_manager.cc:20-39 | whatever else a launch sets off, no failed start stays owing its waiters |
| ProcessRuns.PendingIsQueued | src/process_manager.cc:132-156 | in runs where no app is started while it waits, the pending count is the number of its continuations still queued on its preambles; `CountsAlwaysRight` is the converse |
| ProcessTangles.CountsAlwaysRight | src/process_manager.cc:132-156 | over every run, the counts of all apps are right after every event if and only if no app was started while it waited |
| ProcessTangles.StepFaithful | src/process_manager.cc:100-156 | an event that starts an app while it waits leaves some count wrong when it is over |
| ProcessTangles.StartTangles | src/process_manager.cc:132-156 | an app started while continuations of it are queued accounts for more answers than it has preambles when its start is through, and one of the old continuations is still queued |
| ProcessTangles.RequireHolds | src/process_manager.cc:100-130 | whatever requiring an app sets off, what is queued on an app that is not being started itself stays queued |
| ProcessRuns.PendingAtMostQueued | src/process_manager.cc:132-156 | in every run, the pending count is at most that number |
| ProcessRuns.StartGatesExactly | src/process_manager.cc:132-156 | a start, from an event or from the loop over another app's preambles, leaves the count right if and only if none of its continuations was queued; where the count was right before, if and only if the app was not already waiting |
| ProcessRuns.OrderlyRunsAreGated | src/process_manager.cc:100-130 | when apps are required anew only while quiet and every checker can be run, no app is started while it waits and the count is always right |
| ProcessRuns.NoStuckWaiter | src/process_manager.cc:41-55 | in every run without preamble cycles, all waiters are served after every event if and only if no restart they rely on is lost to a clean exit |
| ProcessCycles.SeekIsRequire | src/process_manager.cc:100-156 | where there are no cycles, the downward half that ends without an order of the apps is what Require does |
| ProcessCycles.EverybodyWaits | src/process_manager.cc:100-156 | where every app has a preamble and none a checker, any calls end with every caller still queued, nobody told, and no event possible but calls and time |
| ProcessCycles.BarrenIsCyclic | src/config.cc:297-306 | such a configuration has a cycle |
| ProcessCycles.TwoWaitForEachOther | src/process_manager.cc:100-156 | two apps that are each other's preamble wait for each other for ever |
| ProcessChildren.ProcessesAreKnown | src/process_manager.cc:34-55 | over every run, each process still to exit is the one its app knows after every event, if and only if each was created after the last of its app had exited and could be run |
| ProcessChildren.ExitSeenUpright | src/process_manager.cc:41-45 | an exit makes no process unknown where all are known, and is the only thing that can make one known again |
| ProcessLiveness.EveryWaiterCanBeTold | src/process_manager.cc:20-188 | from wherever a run that lost no restart has got to, possible events that lose none lead to where all that had registered for a given app have been called |
| ProcessLiveness.TellWaiters | src/process_manager.cc:20-188 | those events, by the rank of the app, a restart it waits for and the preambles it waits for; no app ranked higher is started or has its process killed by them |
| ProcessLiveness.SomethingIsDue | src/process_manager.cc:20-156 | whoever has waiters waits, through preambles, on an app with waiters for which an event is due that loses no restart; after it all that wait for that app have been told, or a tick has started its checker, or it is being restarted and no kill is left to wait for |
| ProcessProgress.StepServes | src/process_manager.cc:20-130 | an event keeps all waiters served if and only if it does not lose a restart |
| ProcessExamples.RestartCanBeLost | src/process_manager.cc:41-55 | a run after which a waiter is queued and no check, process or timer is left |
| ProcessExamples.CountCanBeWrong | src/process_manager.cc:172-183 | a run in which a checker that cannot be run starts its app twice and the pending count is wrong |
| ProcessDemand.StepLedger | src/process_manager.cc:20-183 | every event keeps registrations, answers, failures, counts and queued slots accounted for |
| ProcessDemand.RequireBooks | src/process_manager.cc:100-130 | requiring an app adds one slot to what is accounted for and disturbs no app ranked higher |
| ProcessCascade.ClearBooks | src/process_manager.cc:93-98 | answering waiters, with all that follows, loses no slot and justifies every entry it records |
| ProcessCalm.StepCalm | src/process_manager.cc:20-130 | in an orderly run an app has at most one of: a check under way, preambles awaited, a kill awaited |
| ProcessSteps.Clear | src/process_manager.cc:93-98 | the upward cascade ends, leaves the app with no waiters and touches nothing ranked up to it |
| ProcessSteps.Launch | src/process_manager.cc:21-88 | what follows from complete preambles stays above the app in rank, so the cascade never turns back down |
| ProcessSteps.Require | src/process_manager.cc:100-130 | the downward cascade ends, by phase and rank, and keeps the state valid |
| ProcessCycles.SeekRequire | src/process_manager.cc:100-156 | with cycles the downward half ends as well, as fewer and fewer apps have no waiters, and every waiter stays queued |
| ProcessManagement.ClearTurn | src/process_manager.cc:93-98 | calling the waiters of a live vector in place is answering them one by one |
| ProcessManagement.AnswerIgnoresQueue | src/process_manager.cc:93-98 | nothing that follows from calling a waiter reads or changes the vector being iterated |
| ProcessManagement.ProcessManager.ClearCallbacks | src/process_manager.cc:93-98 | the loop over the vector and its final clear have the effect of the cascade |
| ProcessManagement.ProcessManager.Require | src/process_manager.cc:100-130 | registers the callback and checks the app for the first one |
| ProcessManagement.ProcessManager.Check | src/process_manager.cc:158-188 | answers at once without a checker, when the checker cannot be run as well, and otherwise leaves a check in flight |
| ProcessManagement.ProcessManager.Tell | src/process_manager.cc:58-69 | what Require and the start timer do with the outcome of a check, which `CheckerReports` and `TimerTellsExactly` say in terms of answers |
| ProcessManagement.ProcessManager.Call | src/process_manager.cc:145-154 | the continuation counts down, counts errors, and continues at zero |
| ProcessManagement.ProcessManager.Continue | src/process_manager.cc:21-88 | refuses, or creates process and timer; a process that cannot be run answers the waiters |
| ProcessManagement.ProcessManager.CheckPreamble | src/process_manager.cc:132-156 | the loop over preambles has the effect of requiring each in turn |
| ProcessManagement.ProcessManager.OnProcessExit | src/process_manager.cc:41-55 | restart, answer or nothing, by outcome, kill and checker, which `FailedExitRestarts`, `FailedExitTells` and `CleanExitOnly` say in terms of answers and starts |
| ProcessManagement.ProcessManager.OnTick | src/process_manager.cc:71-80 | close the timer without waiters, check unless a check is under way, which `TickTells`, `TickAsks` and `TickEnds` say in terms of answers |
| ForwarderRuns.StreamIntegrity | src/tcp_forwarder.cc:6-33 | in every run and direction, received = delivered + data_out + data_in, and a write is outstanding only with bytes to write |
| ForwarderRuns.OutstandingUntouched | src/tcp_forwarder.cc:17-33 | until the outcome of a write comes in, neither its bytes nor what was delivered change, whatever happens |
| ForwarderRuns.NoStall | src/tcp_forwarder.cc:17-33 | while a sink is open and writable, piled up bytes wait for an outstanding write; without one everything received was delivered |
| ForwarderRuns.ClosedOnce | src/tcp_forwarder.cc:42-54 | the close listener has fired once if both sockets are gone and not before, and no event of that forwarder follows |
| ForwarderRuns.CloseTakesBoth | src/tcp_forwarder.cc:35-54 | when one socket is gone the other is closing or gone |
| ForwarderRuns.TeardownAdvances | src/tcp_forwarder.cc:35-54 | once an end closes nothing puts the teardown off, and every report that is owed brings it closer |
| ForwarderRuns.TeardownOwes | src/handle.cc:6-28 | as long as the teardown is not complete a report is owed and possible |
| ForwarderRuns.TeardownCompletes | src/tcp_forwarder.cc:35-54 | once an end closes, at most five reports are owed in all, nothing more is owed exactly when both sockets are gone, and the listener has then fired once |
| ForwarderRuns.StepSound | src/tcp_forwarder.cc:14-70 | every event keeps both pipes sound, in the two-socket, the echo and the not yet connected mode |
| ForwarderEffects.ErrorClosesBoth | src/tcp_forwarder.cc:35-40 | after an error of reading or writing neither socket is open, and nothing that has piled up changes |
| ForwarderEffects.CloseTakesPeer | src/tcp_forwarder.cc:42-54 | closing a socket closes that one only; when its close is over it is gone and the other is not open |
| ForwarderEffects.OtherwiseOpen | src/tcp_forwarder.cc:14-70 | an open socket stays open in every other event, unless a write is refused |
| ForwarderEffects.ErrorTearsDown | src/tcp_forwarder.cc:35-54 | in every run, from an error or a close on at most five reports are owed, and when none is left both sockets are gone and the listener has fired once |
| ForwarderEffects.DataIsWritten | src/tcp_forwarder.cc:17-25 | bytes that are read are written at once exactly when the other socket is open and writable and no write to it is outstanding, together with all that had piled up |
| ForwarderEffects.SentIsFollowed | src/tcp_forwarder.cc:27-33 | when a write completes, another begins exactly when something has piled up, and takes all of it |
| ForwarderEffects.JoinWrites | src/tcp_forwarder.cc:58-70 | an outgoing socket that is set is written exactly what was read before |
| ForwarderEffects.SentIsDelivered | src/tcp_forwarder.cc:27-28 | a write that completes delivers the bytes it was given, and no other event delivers any |
| ForwarderEffects.ReadIsSent | src/tcp_forwarder.cc:17-33 | in every run, the bytes of all reads of a socket, in order, are those delivered to the other, then those being written, then those piled up |
| ForwarderEffects.CanDeliver | src/tcp_forwarder.cc:27-33 | while a sink is open and writable, at most two completed writes deliver everything read for it |
| Forwarding.TcpForwarder.Swap | src/tcp_forwarder.cc:6-12 | exchanges the two buffer pointers of a client, and those of its peer as well when both share one socket |
| Forwarding.TcpForwarder.Flush | src/tcp_forwarder.cc:20-32 | swaps, hands the full buffer to the socket, and tears both ends down when the write is refused |
| Forwarding.TcpForwarder.OnData | src/tcp_forwarder.cc:17-25 | the data handler, on real buffers, is the machine's step; the buffer of a write is as it was when handed over |
| Forwarding.TcpForwarder.OnSend | src/tcp_forwarder.cc:27-33 | what the write's buffer holds is delivered, the buffer is cleared and what piled up is written |
| Forwarding.TcpForwarder.OnError | src/tcp_forwarder.cc:35-40 | closes its own socket and its peer's; `ErrorClosesBoth` says so of the events that call it |
| Forwarding.TcpForwarder.OnClose | src/tcp_forwarder.cc:42-54 | forgets its socket, on both sides in the echo, then fires or closes the peer |
| Forwarding.TcpForwarder.SetOutgoing | src/tcp_forwarder.cc:58-70 | joins the outgoing socket, shares the buffers when it is the incoming one, and writes what was buffered before |
| Forwarding.Socket.Close | src/handle.cc:20-24 | closing twice is closing once |
| ConnectorSpec.ThenCalledOnce | src/tcp_client.cc:204-252 | in every run `then` was called once if the timer has stopped and not before, with the connected client or with null, and then the attempt under way is closing |
| ConnectorSpec.OneAttempt | src/tcp_client.cc:190-231 | at most one attempt is live, and the shared data points to it exactly as long as its handlers are subscribed, so they are removed only from a live client |
| ConnectorSpec.AttemptsBounded | src/tcp_client.cc:233-249 | at most (timeout - 1) / 500 attempts, none for timeout 0 |
| ConnectorSpec.TickDecides | src/tcp_client.cc:233-249 | a tick at or after the timeout ends the loop with null, any other leaves an attempt under way |
| ConnectorSpec.ConnectedIsHandedOn | src/tcp_client.cc:211-217 | in every run, an attempt that connects ends the loop with that client |
| ConnectorSpec.FailedIsClosed | src/tcp_client.cc:218-221 | in every run, an attempt that the loop listens to is closed by any failure of it, and the loop is not ended by that |
| ConnectorSpec.GoneIsRetried | src/tcp_client.cc:222-247 | once an attempt is gone, the next tick that is not late starts another |
| ConnectorSpec.CanConnect | src/tcp_client.cc:204-252 | as long as another tick is not late, or an attempt is under way, possible events lead to a connection |
| ConnectorSpec.StepSound | src/tcp_client.cc:204-252 | every interleaving of ticks, results, errors and closes, those by whoever was handed an attempt included, keeps the loop sound |
| Connecting.Connector.OnTick | src/tcp_client.cc:233-249 | the timer's handler, on real client objects and the data they share with it, is the machine's step |
| Connecting.Connector.InvokeError | src/tcp_client.cc:218-221 | calling the functions of an error list closes the client the data points to if the loop's function is among them |
| Connecting.TryConnectData.Attach | src/tcp_client.cc:211-225 | the loop's functions go to the end of the client's three lists |
| Connecting.TryConnectData.Detach | src/tcp_client.cc:195-201 | and are taken off again, all others staying in order, only from a client that is there |
| FunctionLists.RemoveUndoesAdd | include/function_list.h:16-20 | removing what was added last restores the list |
| FunctionLists.RemoveKeepsOthers | include/function_list.h:16-20 | removing an entry keeps exactly the others |
| FunctionLists.FunctionList.Remove | include/function_list.h:19 | takes that entry off, in place |
| Connecting.Connector.OnConnect | src/tcp_client.cc:65-75 | a connection stops the timer and is handed on only when the loop still listens |
| Connecting.Connector.OnClose | src/tcp_client.cc:222-225 | a client that goes is forgotten by the loop that listens to it |
| Connecting.Connector.OnTimerClose | src/tcp_client.cc:195-201 | the data goes with the timer, and takes its handlers off a client that is there |
| ProxySpec.ForwardersAreLive | src/tcp_proxy.cc:25-30 | in every run the set of forwarders is exactly those created and not yet destroyed |
| ProxySpec.RemoveFinds | src/tcp_proxy.cc:78-85 | a forwarder that goes is found in the set and leaves it |
| ProxySpec.DecidedOnce | src/tcp_proxy.cc:42-58 | in every run the callback of a session's retry loop runs at most once |
| ProxySpec.OutgoingSetOnce | src/tcp_proxy.cc:42-58 | until then a live forwarder has no outgoing socket, and closing the client finds its socket |
| ProxySpec.NoOrphan | src/tcp_proxy.cc:42-58 | once the retry loop is decided, an upstream socket that is not closing is the open outgoing one of a forwarder whose client is there; with the client gone every upstream socket is closing or gone, joined or too late; a refused or unconnected session leaves no client open |
| ProxySpec.SessionEnds | src/tcp_proxy.cc:24-61 | once an end of a session closes, then in every further run of the proxy at most five reports are owed to its sockets, and its forwarder has left the set exactly when none is owed any more |
| ProxySpec.SessionCanEnd | src/tcp_proxy.cc:24-61 | such reports can always end it |
| ProxySpec.ErrorEndsSession | src/tcp_proxy.cc:24-61 | the same from any error or close of a socket of the session on |
| ProxySpec.ConnectedIsJoined | src/tcp_proxy.cc:42-58 | in every run, an upstream that connects while the forwarder is there is joined to it and written what the client has sent, both being closed if that is refused; one that connects later is closed |
| ProxySpec.RefusedIsClosed | src/tcp_proxy.cc:31-39 | in every run, a session whose check fails has its client closed and never tries to connect |
| ProxySpec.LateIsClosed | src/tcp_proxy.cc:54-57 | in every run, a session whose upstream has not connected in time has its client and the attempt closed |
| ProxySpec.StepSound | src/tcp_proxy.cc:24-61 | every event keeps forwarder, retry loop and set in agreement: the handle of a joined socket is open, closing or gone as the forwarder sees it |
| Sessions.NeverBroken | src/tcp_proxy.cc:63-71 | in every run of proxy and process manager together, each session is answered at most once, after it asked, while it waits for its check |
| Sessions.IsProxyRun | src/tcp_proxy.cc:24-71 | every such run is a run of the proxy alone, so what holds over those holds with the manager and the retry loop in place |
| Sessions.StageIsAnswered | src/tcp_proxy.cc:31-39 | a session connects only because the upstream's app answered it with 0, given on a successful run of its checker if it has one, and is refused only because of an error |
| Sessions.AnswerGetsThrough | src/tcp_proxy.cc:31-42 | in every run, a session that the upstream's app answered with 0 goes on to connect, and one answered with an error is refused |
| Sessions.ConnectionAsks | src/tcp_proxy.cc:63-71 | in every run, a connection asks for the app of the upstream exactly once |
| Sessions.NoOrphan | src/tcp_proxy.cc:24-71 | no orphan connection, whatever the upstream's app does |
| Sessions.ToldAtMostAsked | src/process_manager.cc:93-107 | no caller is answered more often than it has asked |
| Sessions.AskedByCalls | src/process_manager.cc:100-130 | a caller's callback is registered once for each call and by nothing else |
| Proxying.TcpProxy.OnConnector | src/tcp_proxy.cc:42-58 | an event of the retry loop, with its callback when it decides the loop, is the machine's step |
| Proxying.TcpProxy.OnUpstream | src/tcp_proxy.cc:44-57 | closes a late upstream, joins one that came in time, or closes the client |
| Proxying.TcpProxy.OnForwarder | src/tcp_proxy.cc:27-29 | a forwarder's close removes it from the set |
| MemoryPool.HighWater | include/memory_pool.h:29-64 | after any operations, the blocks obtained from malloc are exactly those in the two lists, each in one of them once, and their number is the largest number ever in use at once |
| MemoryPool.ApplyKeepsBlocks | include/memory_pool.h:29-64 | an operation loses no block and gains only the one it obtains |
| MemoryPool.LastFreedFirst | include/memory_pool.h:58-76 | the block freed last is allocated first, and the rest of the pool is as it was |
| MemoryPool.Bypassed | include/memory_pool.h:45-57 | removing a block from the head, the middle or the tail leaves a well linked list of the others in their order |
| MemoryPool.FixedSizeMemoryPool.Allocate | include/memory_pool.h:29-43 | both lists stay mutually linked with null ends, the block comes from the free list if there is one, goes to the head of the used ones, and is recorded as obtained if it is new; its size is that of a block less the 16 bytes of its header |
| MemoryPool.FixedSizeMemoryPool.Free | include/memory_pool.h:45-64 | the block moves to the head of the free list, all others keep their order, null changes nothing |
| MemoryPool.FixedSizeMemoryPool.FreeBlocks | include/memory_pool.h:20-27 | the loop ends and releases the blocks of the list in order |
| MemoryPool.FixedSizeMemoryPool.Destroy | include/memory_pool.h:69-72 | every block ever obtained is released exactly once |
| UrlParsing.ParseInvertsFull | src/url.cc:31-73 | parsing the text of a URL, put together as in section 5.3 of RFC 3986 with the port, gives back every part |
| UrlParsing.ParsedIsWellFormed | src/url.cc:31-73 | what is parsed from a text with a mark is such a URL |
| UrlParsing.NormalisationIdempotent | src/url.cc:31-73 | parse(recompose(parse(s))) = parse(s) if and only if the first "://" is not at the start, or neither host nor port nor another "://" follows it |
| UrlParsing.MarkAtStartLoses | src/url.cc:34-50 | for every URL with an empty scheme and a host or a port, the parser reads its full text but not the text recomposed without a scheme |
| UrlReading.ParseIsReading | src/url.cc:31-73 | a URL is what a text parses to if and only if its parts, with the separators that lead them, make up the text whole and in order, each ending where the next separator begins and the scheme at the first mark, and its path is that of the text behind one '/' exactly if what follows the authority is there and begins with none |
| UrlParsing.UrlRecord.ParseUrl | src/url.cc:31-73 | the parser that fills the fields character by character computes the parts that `ParseIsReading` says are those of the text |
| UrlDecoding.DecodeInvertsEncode | src/url.cc:4-20 | decoding gives back the bytes whatever was chosen per byte: itself, '+' for a space, or %XX in either case (section 2.1 of RFC 3986, section 5.1 of the WHATWG URL Standard) |
| UrlDecoding.EncodedHasNoNul | src/url.cc:4-20 | such a text is a C string |
| UrlDecoding.HexIsWritten | src/url.cc:7-10 | the hex digits are exactly those of "0123456789abcdef" in either case, each with its place as its value |
| UrlDecoding.DecodesByUnits | src/url.cc:6-17 | '%' with two hex digits is the byte they write, without them it stands for itself, '+' is a space, any other byte is itself |
| UrlDecoding.DecodeShrinks | src/url.cc:4-20 | a buffer as long as the text always holds what it decodes to |
| UrlDecoding.DecodeUrlComponent | src/url.cc:4-20 | the loop writes exactly the decoded bytes and a NUL and returns their number, in place as well |
| UrlDecoding.ParseQueryString | src/url.cc:80-116 | the state machine calls back with the pairs of the pieces between '&', in order, skipping empty ones |
| UrlDecoding.PiecesAre | src/url.cc:96-116 | the pieces are the only strings without '&' that joined by '&' make up the query string |
| UrlDecoding.PieceSplits | src/url.cc:97-111 | the first '=' of a piece separates key and value; without one all of it is key |
| UrlDecoding.QueryRoundTrip | src/url.cc:80-116 | parsing gives back the pairs a query string was written from |
| StringBuffers.StringBuffer.Reserve | include/string_buffer.h:68-94 | success, too large or out of memory; growth is to a multiple of 512 with a zero tail, failure changes nothing |
| StringBuffers.StringBuffer.Write | include/string_buffer.h:96-106 | appends the bytes, or fails and leaves contents and tail; the tail stays zero if it was |
| StringBuffers.StringBuffer.Resize | include/string_buffer.h:31-41 | cuts to a prefix, or extends by the bytes of the tail and zeros; the size is past the end of the array exactly when it neither fits nor can be reserved |
| StringBuffers.StringBuffer.Consume | include/string_buffer.h:43-48 | drops the first bytes, the tail stays zero if it was |
| StringBuffers.StringBuffer.Clear | include/string_buffer.h:50-53 | empty contents, capacity kept, tail zero whatever it held |
| StringBuffers.StringBuffer.Overflow | include/string_buffer.h:55-62 | appends one byte, or runs past the end of the array exactly when there is no room |
| StringBuffers.StringBuffer.Printf | include/string_buffer.h:116-138 | appends exactly the formatted text, or fails exactly when it does not fit and cannot be made to, leaving the contents, and a zero tail exactly when what was formatted is zero |
| StringBuffers.StringBuffer.FormatUntilFit | include/string_buffer.h:119-135 | the loop ends within two rounds |
| StringBuffers.LeftoverText | include/string_buffer.h:116-138 | a buffer whose contents end in text of a formatted write that failed |
| StringBuffers.PastTheEnd | include/string_buffer.h:31-62 | two buffers whose put pointer is past the end |
| ConfigMeaning.ParseAppMeans | src/config.cc:223-243 | parsing an app succeeds exactly when it is well formed; the pointer it returns leads to what was meant; every name has exactly one app and every pointer an app; each name's last definition counts |
| ConfigMeaning.ParseAppsMean | src/config.cc:269-278 | the same for a list of apps |
| ConfigMeaning.TargetStays | src/config.cc:223-243 | what a pointer leads to never changes as parsing goes on, whatever is defined later |
| ConfigMeaning.GraphIsLast | src/config.cc:269-306 | the graph of a configuration: its names are those mentioned, each with its last definition, or the default one |
| ConfigMeaning.OrderDoesNotMatter | src/config.cc:223-306 | with no name defined in two ways, configurations with the same definitions and mentions give the same graph, whether definitions come before or after references or inside preambles |
| ConfigMeaning.PermutedIsTheSame | src/config.cc:269-278 | permuting a list of apps changes neither whether it is accepted nor its graph |
| ConfigMeaning.RedefinitionMatters | src/config.cc:229-236 | with two definitions of one name, their order matters exactly when they differ |
| Configuration.Config.GetApp | src/config.cc:375-392 | the object of the name, or a new one in vector and map |
| Configuration.Config.Store | src/config.cc:231-239 | a parsed definition is moved into the object of its name, in place, or pushed as a new one |
| Configuration.Config.ParseApp | src/config.cc:223-243 | on real objects and pointers, the result and the new state are those of the specification |
| Configuration.Config.ParseApps | src/config.cc:269-278 | the loop stops at the first app that fails and otherwise returns all pointers in order |

## Left out

What the environment is taken to do:

- The preamble relation has no cycle, which `src/config.cc` does not check. `process_cycles.dfy` says what happens with one as long as nobody is answered; what answering does then, with a queue that may be answered again while it is being answered, is not modelled.
- libuv, sockets, name resolution, child processes and the clock are events with the order the code relies on: no reads once a close has begun, outcomes of writes and connects before the end of a close, a clock that does not run backwards.
- Object identities are fresh: address reuse, and memory concerns of handles that delete themselves, are not part of this model. Closing a timer that is already closing does nothing.
- Callers' own callbacks and process listeners do not call `Require`; listeners are only told and are not modelled.
- A running process or checker raises no stream error of its own; only a failure to start it is reported through `OnError`. `uv_pipe_init` does not fail, so a failed start reports its exit later, not within it.
- Name resolution does not fail within the call that starts it and does not outlive its client, though it may come back while the client is closing; effective ticks of the retry timer are at least its interval apart.
- `malloc` returns a block with null links and does not fail: `Allocate` never writes `prev` (`include/memory_pool.h:29-43`).
- The proxy outlives its sessions.

Stated weaker than one could wish:

- ProcessRuns.OrderlyRunsAreGated: gives a sufficient condition on callers and checkers, not a necessary one; the exact one is `CountsAlwaysRight`.
- StringBuffers.StringBuffer.Resize: says where the put pointer is when there was no room, not what the source does with a pointer past the end; the conversion of the size to an int is not modelled.
- StringBuffers.StringBuffer.Overflow: without room, the byte the source writes falls outside the array, and what it hits is not modelled; neither is the end-of-file argument, which does nothing.
- StringBuffers.StringBuffer.Printf: for a formatter that returns the full length, as in C99, and the same text each round; a size_t that overflows is not modelled.
- UrlDecoding.ParseQueryString: the callback's return value, which the source ignores, is not modelled.
- ConfigMeaning.ParseAppMeans: all settings of an app but name and preamble are one abstract value; a JSON value of the wrong kind or an unknown key is `Bad`, with the preamble that was read before it.

Not modelled:

- What the functions on a `FunctionList` do, but for those of the retry loop; listeners that add or remove functions while a list is being called.
- `Process` beyond the events it delivers, and `ProcessManager::str`, which is used for log text.
- `StringBuffer::Load`, `Save` and `read`: file input and output.
- `HttpServer`, `HttpClient`, `UdpServer`, `AsyncWork`, the logger, the admin and dummy servers, `main`: plumbing.
- Sections of the configuration other than apps and the apps of upstreams: field copying.
