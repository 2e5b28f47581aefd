# Seedling: a verified model of its protocols and state machines

Seedling runs applications described by scripts. A daemon executes their lifecycle operations, recovers them after a
crash and hands work to relay peers; a web gateway serves browsers over WebTransport; a command line tool follows
streams. These Dafny files model the parts of that system whose correctness depends on order, crashes, interleavings or
text that must not escape a root, and prove what holds over every run.

`dafny verify dfyconfig.toml` checks the whole project.

## Layout

| file | models |
|---|---|
| `BarrierReplay.dfy` | the action log, the replay context and one pass of an action closure over them |
| `ReplayResumption.dfy` | whole operations: any number of passes, crashes and torn commits over one log |
| `BarrierRecords.dfy` | which barriers the log has a record of, with and without torn commits |
| `CaughtBarriers.dfy` | closures that catch the exception of an expired barrier |
| `StopDeadlines.dfy` | since when `rt.stop` has waited, which need not be its own start |
| `BarrierDeadlines.dfy` | barrier deadlines over whole operations |
| `StartupRecovery.dfy` | start-up after a crash: orphan cleanup, the interrupted operation, the stuck-app sweep |
| `ActionCalls.dfy` | actions invoking actions, and the guard against recursion |
| `ComposedActions.dfy` | replay of operations whose actions invoke actions |
| `CanopyOffers.dfy` | relay offers, their connection index and the serving offer |
| `CanopyLocks.dfy` | the same offers at the level of the two locks, with any number of threads |
| `EventBroker.dfy` | the event cache and broadcast channel, and one browser following them |
| `WebSessions.dfy` | the registry of browser sessions, their handlers and the reaper |
| `WtTokens.dfy`, `CertRotation.dfy`, `Handshake.dfy` | one-time tokens, certificate rotation, and the two together |
| `UniRouter.dfy` | pairing of unidirectional streams with those who wait for them |
| `ActorActivity.dfy` | who did what last, within a window |
| `HttpRoutes.dfy` | the route table an application script declares |
| `VolumePaths.dfy` | volume paths, bundle paths and mount points |
| `RelayFrames.dfy`, `LineSplitter.dfy` | length-limited relay frames and newline-delimited streams read in chunks |
| `Common.dfy` | shared vocabulary |

State that the program updates in place is a class whose methods are proved against a function of the old state. Each
run is a sequence of steps, calls or turns, and its state is the fold of that function. Time, randomness, the outside
world and the contents of JSON are parameters.

## What the proofs found

- A replayed operation is a resumed one: running the closure again from its first statement on every pass, across any
  crashes, also between two rows of a commit, performs what keeping it suspended would perform
  (`ReplayResumption.ReplayIsResumption`). So it is for operations whose actions invoke actions, walked frame by frame
  with the call stack (`ComposedActions.ComposedIsResumption`). A closure that catches nothing needs no condition for
  this (`CaughtBarriers.UncaughtSteady`); the exception of an expired barrier may be caught if no later pass finds that
  barrier met or its clock set back. Closures that catch any other exception are not modelled.
- The log does not record that a barrier expired, and a pass asks the world before the deadline. So an unchanged closure
  that catches an expired barrier and goes on can be stopped by a replay mismatch
  (`CaughtBarriers.CaughtBarrierDiverges`): it is, whenever a later pass finds the barrier met and what the closure does
  then is another call than the one it had made (`CaughtBarriers.MetLaterDiverges`).
- The rows of a commit are inserted one by one. When the daemon dies between the row that carries a later barrier's
  record and the row of the call before that barrier, the call is made again and the wait after it is skipped
  (`BarrierRecords.TornCommitEndsWait`). A replayed pass always gets past the barriers recorded as passed before it, met
  now or not; the question is what is left of the closure after them. Over every run, torn commits included, each
  barrier of that rest is met, or given up on, in the world of the pass that gets past it exactly when the log has none
  of them as passed already (`BarrierRecords.ResumedAsksExactly`). Without a torn commit it never has
  (`BarrierRecords.UntornAsks`).
- The specification has each barrier timed from its own wait. `rt.stop` takes the first start on record for the same
  resources instead, so it can fail the moment it is made, as an earlier stop or wait for the same resources has waited
  that long (`StopDeadlines.LentStartFails`; after a torn commit also `StopDeadlines.TornStartFails`).
  `StopDeadlines.FailsAtOnceExactly` says exactly when, over every run of every closure. While no commit is torn and
  nothing is caught, the start is that of the barrier the pass started at (`StopDeadlines.FailsAtOnceUntorn`), and a
  stop that has waited once is timed from its own first wait (`BarrierDeadlines.DeadlineFromFirstWait`).
- `install_interrupted` is promised for every install that cannot be replayed. Over any number of crashed start-ups it
  is filed exactly when none of them died, the revert still being due, between the update of the app's phase and the
  filing (`StartupRecovery.InterruptedFaultExactly`).
- `WebSessionModeChanged` is published after the registry lock is released, so two heartbeats can be announced in the
  other order than they were applied, and peers keep believing the older mode. With nothing left to publish they
  believe the registered mode exactly when the change published last carries the mode of the change applied last
  (`WebSessions.AnnouncedModeExactly`); publishing in turn is enough (`WebSessions.InTurnModeCurrent`).
- A redirect and a non-default `balance` can both be accepted on one prefix, since a later `balance` can set the default
  again. `HttpRoutes.RedirectAcceptedExactly` says when a redirect is accepted.
- `touch` overwrites `last_seen` even with an older stamp, so a session that was seen recently can be reaped. Recent
  sessions are safe exactly when the last stamp applied to each is its latest (`WebSessions.SparesRecentExactly`).
- An offer stays live outside its connection's index exactly when the index was emptied between the two halves of its
  registration (`CanopyLocks.StrandedExactly`).
- The two-hour swap window of certificate rotation is exact: no longer interval between checks is safe
  (`CertRotation.SafeGapExactly`).
- A relay frame cut inside its body reads as a complete frame with a shorter body (`RelayFrames.CutExactly`).

## Model

| member | source | states |
|---|---|---|
| `BarrierReplay.ReplayContext.constructor` | crates/core/src/runtime/barrier/replay.rs:347-352 | A pass starts over the loaded log at call 0 with nothing pending. |
| `BarrierReplay.ReplayContext.NextBarrierSeq` | crates/core/src/runtime/barrier.rs:434-439 | Barriers on a call are numbered from zero in the order they are asserted in this pass. |
| `BarrierReplay.ReplayContext.ConsumeEntry` | crates/core/src/runtime/barrier.rs:465-493 | The entry at this position is consumed exactly when its kind, and its argument where one is expected, match; a mismatch consumes nothing. |
| `BarrierReplay.ReplayContext.ClaimLogPosition` | crates/core/src/runtime/barrier/runtime.rs:391-415 | A recorded call keeps its index and adds no entry; a fresh one adds one entry at the next index. |
| `BarrierReplay.ReplayContext.SignalOnce` | crates/core/src/runtime/barrier/runtime.rs:1263-1308 | A signal already in the log at this position is not delivered again; another signal name there is a divergence. |
| `BarrierReplay.ReplayContext.AskOnce` | crates/core/src/runtime/barrier/action_call.rs:142-201 | An invocation in the log is not validated again and takes the recorded params, if it names the same action; in the same way a command in the log is not run again and its exit code is the recorded one (crates/core/src/runtime/barrier/runtime.rs:1359-1470). |
| `BarrierReplay.ReplayContext.StopOnce` | crates/core/src/runtime/barrier/runtime.rs:1559-1728 | `rt.stop` pushes one whole entry, over whatever stop the log has there. If that is this stop, it does what claiming a call and then waiting at its first barrier does, in outcome and context. |
| `BarrierReplay.ReplayContext.RecordAt` | crates/core/src/runtime/barrier/runtime.rs:434-466 | A record lands on its own barrier of the right entry, corrects a committed entry by a copy, and keeps a start already recorded. |
| `BarrierReplay.ReplayContext.CheckBarrier` | crates/core/src/runtime/barrier/runtime.rs:2243-2434 | Order of decision: recorded pass, then the world, then the deadline, then waiting. |
| `BarrierReplay.PassGood` | crates/core/src/runtime/barrier/replay.rs:290-545 | Whatever the closure is, a pass performs calls only past the end of the log, and its pending entries are those calls and corrected copies. |
| `BarrierReplay.FlushedCalls` | crates/core/src/runtime/barrier/replay.rs:66-84 | Committing appends exactly the calls performed, in order, and changes no recorded call. |
| `ReplayResumption.SkipsRecorded` | docs/spec/runtime.md:724-732 | A pass equals one started where the log's answers end: execution fast-forwards to the first barrier not recorded as passed. |
| `ReplayResumption.CancelledDoesNothing` | crates/core/src/runtime/barrier/runtime.rs:2267-2271 | A cancelled pass over a log that leads past a command, stop or barrier, or to one, performs nothing and writes nothing. |
| `ReplayResumption.PassKept` | docs/spec/runtime.md:743-746 | Within a pass the record of a barrier already asserted never changes, whatever other barriers on the call do. |
| `ReplayResumption.Lands` | crates/core/src/runtime/barrier/runtime.rs:2379-2434 | The log a suspended pass leaves leads back to the very barrier it suspended at, with every earlier one passed. |
| `ReplayResumption.LeadsOn` | docs/spec/runtime.md:734-741 | A log that extends another leads the closure at least as far. |
| `BarrierReplay.WrittenGood` | crates/core/src/runtime/barrier/replay.rs:126-160 | However many rows of a commit are written, their calls are a prefix of the calls performed, with no gap. |
| `ReplayResumption.TornLands` | crates/core/src/runtime/barrier/replay.rs:126-160 | Wherever a commit is torn, the log leads the unchanged closure over all the calls it has: every barrier before a written call is recorded as passed. |
| `ReplayResumption.ReplayIsResumption` | docs/spec/runtime.md:718-732 | For every sequence of finished passes, crashed passes and torn commits of an unchanged closure, replaying from the start has the log, the calls and the ending of a closure resumed where it stopped, and the log has no call the closure does not make; if the closure catches expired barriers, as long as no later pass finds one of them met or its clock set back. |
| `ReplayResumption.RecordedOnce` | docs/spec/runtime.md:730-730 | Even if scripts change between passes, the calls in the log are exactly the calls whose row was written, each performed once for it and in order. |
| `ReplayResumption.NeverDiverges` | docs/spec/runtime.md:751-753 | An unchanged closure is not stopped by a replay mismatch, under the same condition on barriers it has given up on. |
| `CaughtBarriers.UncaughtSteady` | docs/spec/language.md:54-58 | A closure that catches no expired barrier meets that condition in every run. |
| `CaughtBarriers.MetLaterDiverges` | crates/core/src/runtime/barrier/runtime.rs:2336-2398 | After every run that has given up on a barrier: a pass that finds the first such barrier met, where the closure then makes another call than the log has, ends in a divergence, while the kept closure does not. |
| `CaughtBarriers.CaughtBarrierDiverges` | crates/core/src/runtime/barrier/runtime.rs:2336-2398 | A run of three passes in which an unchanged closure that catches an expired barrier ends in a divergence. |
| `ReplayResumption.DivergedDoesNothing` | crates/core/src/runtime/barrier.rs:169-176 | A closure the log contradicts is stopped before it performs anything. |
| `BarrierDeadlines.WaitStarts` | docs/spec/runtime.md:745-745 | A pass that suspends leaves the start already on record for its barrier, or its own clock where there is none. |
| `StopDeadlines.FirstLender` | crates/core/src/runtime/barrier/runtime.rs:1643-1663 | Whatever the log, the start a stop is timed from is that of the first row that waits, as its first barrier, for the termination of the same resources. |
| `StopDeadlines.AlwaysUntorn` | docs/spec/runtime.md:743-746 | Over every run without a torn commit, of a closure that catches nothing, every barrier on record is met but the one waited on, and a stop waited on has its own call in place. |
| `StopDeadlines.FailsAtOnceExactly` | crates/core/src/runtime/barrier/runtime.rs:1643-1672 | Over every run of every closure, torn commits included, and wherever in a pass a stop is made: it fails before it has waited exactly when its resources are there and the first wait the log has for their termination is as old as the stop may wait. |
| `StopDeadlines.FailsAtOnceUntorn` | crates/core/src/runtime/barrier/runtime.rs:1643-1672 | Without a torn commit or a catch: exactly when that is the barrier the pass started at, the first on its call. |
| `StopDeadlines.LentStartFails` | crates/core/src/runtime/barrier/runtime.rs:1643-1672 | A run of two passes in which a stop with a deadline of ten seconds fails as it is made. |
| `StopDeadlines.TornStartFails` | crates/core/src/runtime/barrier/replay.rs:126-160 | A run in which, after a torn commit, the pass starts elsewhere and the stop still fails as it is made. |
| `BarrierDeadlines.DeadlineFromStart` | docs/spec/runtime.md:707-711 | A barrier that stays unmet fails its operation exactly when a later pass finds the deadline gone since the recorded start of its wait, or for a stop since the first start lent to it, whatever passes, crashes and torn commits lie between; if the closure catches that, the operation has not ended before. |
| `BarrierDeadlines.UnmetPass` | docs/spec/runtime.md:707-711 | A pass at an unmet barrier fails, goes on with the catch or suspends, by the start of the wait alone, and in the first and last case leaves the log as it was. |
| `BarrierDeadlines.StopStartsWithFirst` | docs/spec/runtime.md:755-757 | Without a torn commit or a catch, a stop waited on is lent no start but its own. |
| `BarrierDeadlines.DeadlineFromFirstWait` | docs/spec/runtime.md:743-746 | Where no commit was torn before, that start is the first pass that suspended at the barrier; for a stop too, if the closure catches nothing. |
| `BarrierRecords.AlwaysReady` | docs/spec/runtime.md:734-741 | While no commit is torn the log has no record of a barrier the closure has not come to. |
| `BarrierRecords.AskedExactly` | docs/spec/runtime.md:703-705 | From the end of any log on, every barrier a closure gets past is met or given up on while it runs, in every world, exactly when the log has no barrier it may come to as passed. |
| `BarrierRecords.ResumedAsksExactly` | docs/spec/runtime.md:703-705 | So for what is left of the closure after every run, torn commits included. |
| `BarrierRecords.UntornAsks` | docs/spec/runtime.md:703-705 | Without a torn commit the log never has such a record, and the rest of the closure gets past no barrier but those met or given up on while the pass runs. |
| `BarrierRecords.TornCommitEndsWait` | crates/core/src/runtime/barrier/replay.rs:126-160 | A run of three passes in which a torn commit lets the wait after a repeated signal be skipped. |
| `StartupRecovery.Database.CleanUpOrphans` | crates/daemon/src/main.rs:473-589 | Faults of orphaned instances are cleared, then every dynamic row but those of the operation to be replayed is deleted. |
| `StartupRecovery.Database.RevertInstallAndFault` | crates/daemon/src/main.rs:1521-1568 | The writes of a revert, in their order: phase, operation row, fault. |
| `StartupRecovery.Database.ReplayInterruptedOperation` | crates/daemon/src/main.rs:1349-1519 | Which writes each fate of the interrupted operation makes, and when it is handed to replay. |
| `StartupRecovery.Database.SweepStuckApps` | crates/daemon/src/main.rs:1085-1125 | The listed stuck apps, except the operation's own, go to Uninstalling. |
| `StartupRecovery.Database.StartUp` | crates/daemon/src/main.rs:1062-1125 | A start-up is cleanup, the operation, the sweep, in that order of writes. |
| `StartupRecovery.CleanupKeepsOwned` | crates/daemon/src/main.rs:568-580 | The rows that survive cleanup are exactly those of the operation to be replayed. |
| `StartupRecovery.CleanupKeepsRest` | crates/daemon/src/main.rs:473-589 | Cleanup changes neither apps nor the operation row. |
| `StartupRecovery.SweepExactly` | crates/daemon/src/main.rs:1114-1125 | A sweep moves exactly the stuck apps and touches nothing else. |
| `StartupRecovery.StartupOutcome` | crates/daemon/src/main.rs:1062-1125 | A complete start-up hands the row to replay or clears it, keeps what the operation owns, and leaves every other app settled. |
| `StartupRecovery.HarmlessKeepsEnd` | crates/daemon/src/main.rs:1062-1125 | A write start-up may make does not change the state recovery ends in. |
| `StartupRecovery.StartupHarmless` | crates/daemon/src/main.rs:1349-1568 | Every write of a start-up is such a write at the moment it is made. |
| `StartupRecovery.CrashKeepsEnd` | crates/daemon/src/main.rs:1062-1125 | A crash between any two writes of a start-up leaves the end of recovery unchanged. |
| `StartupRecovery.CrashesKeepEnd` | crates/daemon/src/main.rs:1062-1125 | So does any number of crashed start-ups. |
| `StartupRecovery.StartupKeepsEnd` | crates/daemon/src/main.rs:1062-1125 | A complete start-up leaves it unchanged as well. |
| `StartupRecovery.SettledIsRecovered` | crates/daemon/src/main.rs:1062-1125 | Where nothing is left to recover, the state is that end. |
| `StartupRecovery.ReplayableConverges` | crates/daemon/src/main.rs:1062-1125 | After any crashed start-ups, one complete start-up reaches the end of recovery when the operation can be replayed, and the operation owns what it owned. |
| `StartupRecovery.Converges` | crates/daemon/src/main.rs:1062-1125 | In every other case two complete start-ups reach it. |
| `StartupRecovery.StartupFiles` | crates/daemon/src/main.rs:1521-1568 | A complete start-up files `install_interrupted` exactly for the install it reverts. |
| `StartupRecovery.InterruptedFaultExactly` | crates/daemon/src/main.rs:1540-1558 | After any number of crashed start-ups and a complete one the fault is on file exactly when none of them, the revert still being due, died between the phase update and the filing. |
| `StartupRecovery.InterruptedFaultOnce` | crates/daemon/src/main.rs:1540-1558 | For one crash: exactly when it did not fall there. |
| `StartupRecovery.FaultDecided` | crates/daemon/src/main.rs:1521-1568 | Where no revert is due, no later crash or start-up files or loses the fault. |
| `ActionCalls.ActionCallTable.constructor` | crates/core/src/defs/app.rs:178-194 | The outer action's name seeds the call stack. |
| `ActionCalls.ActionCallTable.RunClosure` | crates/core/src/defs/app.rs:213-242 | The call stack is restored whether a closure returns or throws. |
| `ActionCalls.ActionCallTable.CallAction` | crates/core/src/runtime/barrier/action_call.rs:38-82 | A name on the stack, an unknown name or refused parameters are refused without an event; any other call runs the named closure one level deeper. |
| `ActionCalls.FreshShrinks` | crates/core/src/runtime/barrier/action_call.rs:52-57 | Each nested call uses up one action name, which bounds every invocation tree. |
| `ActionCalls.StacksDistinct` | crates/core/src/runtime/barrier/action_call.rs:52-57 | No call stack that ever arises repeats a name. |
| `ActionCalls.DepthBounded` | crates/core/src/runtime/barrier/action_call.rs:52-57 | Calls never nest deeper than the number of actions plus one. |
| `ActionCalls.GuardInvisible` | crates/core/src/runtime/barrier/action_call.rs:38-82 | For actions that do not recurse, the guarded run has the result and events of the unguarded one. |
| `ActionCalls.OperationRunsAsWritten` | docs/spec/runtime.md:640-646 | Such an operation runs as written. |
| `ComposedActions.FlattenFits` | docs/spec/runtime.md:640-644 | Wherever an action is invoked, its barriers hang on calls of the overall operation made before them. |
| `ComposedActions.FramesRunAsScript` | crates/core/src/runtime/barrier/action_call.rs:38-82 | One pass that enters and leaves closures on a call stack has the outcome and log of one closure with the invoked ones written out, the recorded params deciding which. |
| `ComposedActions.ComposedIsResumption` | docs/spec/runtime.md:641-658 | However actions invoke one another, an operation replayed from its first statement on every pass has the log, the calls and the ending of one kept with all its frames, and is not stopped by a mismatch, as long as no pass meets a barrier that an earlier one gave up on. |
| `CanopyOffers.CanopyState.MakeOffer` | crates/core/src/oi/canopy.rs:160-188 | A new offer takes the next sequence number and joins map and index. |
| `CanopyOffers.CanopyState.Withdraw` | crates/core/src/oi/canopy.rs:191-203 | Whether the offer existed for that connection, and the state without it. |
| `CanopyOffers.CanopyState.RemoveByConn` | crates/core/src/oi/canopy.rs:206-221 | The offers listed for the connection, removed and returned. |
| `CanopyOffers.CanopyState.RevokeAll` | crates/core/src/oi/canopy.rs:223-231 | All offers, removed and returned. |
| `CanopyOffers.CanopyState.Unindex` | crates/core/src/oi/canopy.rs:256-264 | The id leaves its connection's list, and an emptied list leaves the index. |
| `CanopyOffers.CanopyState.Current` | crates/core/src/oi/canopy.rs:235-237 | A live offer of greatest sequence number, or none exactly when there is none. |
| `CanopyOffers.RemoveKeeps` | crates/core/src/oi/canopy.rs:206-221 | Closing a connection removes and returns exactly its offers, oldest first, and leaves every other as it was. |
| `CanopyOffers.OfferKeeps` | crates/core/src/oi/canopy.rs:160-186 | Registering keeps map and index in step. |
| `CanopyOffers.WithdrawKeeps` | crates/core/src/oi/canopy.rs:191-202 | So does withdrawing. |
| `CanopyOffers.NextRefines` | crates/core/src/oi/canopy.rs:160-231 | Each operation on map, index and counter does what it does to the plain list of live offers. |
| `CanopyOffers.AlwaysRepresents` | crates/core/src/oi/canopy.rs:81-108 | In every run map, index and counter agree and stand for that list. |
| `CanopyOffers.CurrentIsLast` | crates/core/src/oi/canopy.rs:235-237 | The serving offer is the last registered of those still live. |
| `CanopyOffers.NextNewestTakesOver` | crates/core/src/oi/canopy.rs:228-237 | When the serving offer is withdrawn the newest of the others serves, and when its connection closes the newest of other connections. |
| `CanopyOffers.EndsExactly` | crates/core/src/oi/canopy.rs:191-231 | Withdrawal succeeds exactly for a live offer of that connection; closing and revoking report exactly the live offers concerned. |
| `CanopyLocks.EndedAtMostOnce` | crates/core/src/oi/canopy.rs:160-231 | In every interleaving of the two locks each offer is reported ended at most once, and exactly once when it is registered and no longer live. |
| `CanopyLocks.OnlyOwnEnded` | crates/core/src/oi/canopy.rs:191-221 | In every interleaving a connection ends only its own offers. |
| `CanopyLocks.AlwaysGood` | crates/core/src/oi/canopy.rs:160-264 | The invariant behind both, with where each unindexed live offer still is. |
| `CanopyLocks.StrandedExactly` | crates/core/src/oi/canopy.rs:178-231 | With all calls finished, a live offer is missing from its connection's index exactly when the index was emptied between its two registration steps. |
| `CanopyLocks.CloseDuringOfferStrands` | crates/core/src/oi/canopy.rs:178-221 | From any state in the middle of a registration, closing the connection then leaves such an offer behind. |
| `CanopyLocks.PushedOffer` | crates/core/src/oi/canopy.rs:178-183 | Such a state is two steps from the start. |
| `EventBroker.Broker.Append` | crates/web/src/event_broker.rs:31-41 | The cache holds the last 200 events. |
| `EventBroker.ClientInvJoin` | crates/web/src/event_broker.rs:43-49 | A client that joins holds the last 200 events appended by then, and every event sent before its subscription was appended before its snapshot. |
| `EventBroker.Receive` | crates/web/src/event_broker.rs:62-75 | A receiver lags exactly when more than 512 events lie ahead of it. |
| `EventBroker.ServeClient` | crates/web/src/event_broker.rs:53-76 | A client that only starts reading at the end is written its snapshot and the last 512 events since, and every other is counted as skipped. |
| `EventBroker.Reachable` | crates/web/src/event_broker.rs:31-76 | The invariants of broker and client in every interleaving of the two halves of a publish. |
| `EventBroker.NoGap` | crates/web/src/event_broker.rs:43-76 | A client that never lagged has, or has ahead of it, every event appended since its snapshot began. |
| `EventBroker.DeliveredExactly` | crates/web/src/event_broker.rs:31-76 | How often it gets each event, once everything is sent: once for the snapshot, once for the channel. |
| `EventBroker.TwiceOrNever` | crates/web/src/event_broker.rs:31-76 | Exactly which interleaving delivers an event twice and which not at all; one appended after the snapshot comes exactly once. |
| `EventBroker.PublisherOrder` | crates/web/src/event_broker.rs:31-41 | The channel carries each publisher's events in the order they were appended. |
| `EventBroker.SkipsExactly` | crates/web/src/event_broker.rs:60-76 | Nothing is skipped exactly when the client never falls more than 512 events behind. |
| `EventBroker.LagConserved` | crates/web/src/event_broker.rs:60-76 | Written, skipped and remaining events add up to those sent since the subscription. |
| `EventBroker.SurvivorsExactly` | crates/web/src/event_broker.rs:60-76 | Lagging or not, a client gets exactly the events sent since it subscribed that were never more than 512 from the end at a receive of its own, in order. |
| `WebSessions.WebSessionRegistry.Touch` | crates/web/src/web_sessions.rs:92-110 | The outcome and new entry of a heartbeat; a missing session stays missing. |
| `WebSessions.WebSessionRegistry.CollectStale` | crates/web/src/web_sessions.rs:112-120 | The stale sessions, each once. |
| `WebSessions.WebSessionRegistry.ReapStale` | crates/web/src/web_sessions.rs:112-124 | Exactly the stale sessions leave, each reported once. |
| `WebSessions.StopsConserved` | crates/web/src/wt.rs:296-315 | No step of handler, reaper or publisher makes or loses the right to announce a stop. |
| `WebSessions.ExactlyOneStop` | crates/web/src/wt.rs:296-373 | In every run each session ever started has exactly one stop, announced or still owed. |
| `WebSessions.StoppedOnce` | crates/web/src/wt.rs:296-373 | Peers see at most one stop per session, and exactly one once its handler is done and no sweep holds it. |
| `WebSessions.NeverReregistered` | crates/web/src/web_sessions.rs:92-110 | A session that has left never comes back, whatever arrives late. |
| `WebSessions.ModesReachable` | crates/web/src/wt.rs:152-177 | In every run each mode change is published at most once, is a change from the mode before, and the mode told is that of the change published last. |
| `WebSessions.AnnouncedModeExactly` | crates/web/src/wt.rs:152-177 | With nothing left to publish, peers believe the registered mode exactly when the change published last carries the mode of the change applied last. |
| `WebSessions.InTurnModeCurrent` | crates/web/src/wt.rs:152-177 | Published oldest first, the mode told is the one after as many changes as were published, and finally the registered one. |
| `WebSessions.OvertakenChangeMisleads` | crates/web/src/wt.rs:152-177 | A run in which two heartbeats are published in the other order and peers keep the wrong mode. |
| `WebSessions.SparesRecentExactly` | crates/web/src/web_sessions.rs:92-124 | No sweep takes a session seen within the cutoff exactly when each session's last applied stamp is its latest. |
| `WebSessions.InOrderSparesRecent` | crates/web/src/web_sessions.rs:92-124 | Stamps applied in order are enough. |
| `WebSessions.OutOfOrderHeartbeatReaped` | crates/web/src/web_sessions.rs:92-124 | A run in which an open session seen one second ago is reaped. |
| `WtTokens.WtTokenMap.Issue` | crates/web/src/state.rs:25-42 | Expired and used entries go, the new one is added. |
| `WtTokens.WtTokenMap.Consume` | crates/web/src/state.rs:44-52 | The entry's actor when it is known, unused and unexpired, and the entry marked used. |
| `WtTokens.PruningInvisible` | crates/web/src/state.rs:25-42 | Every call is answered as if nothing were ever forgotten. |
| `WtTokens.ConsumeAnswers` | crates/web/src/state.rs:44-52 | A token is honoured exactly when it was issued, is within its lifetime and was not presented in it before, and yields the actor it was issued to. |
| `WtTokens.YieldsAtMostOnce` | crates/web/src/state.rs:44-52 | A token that has yielded its actor never yields again. |
| `CertRotation.CertStore.constructor` | crates/web/src/wt_cert.rs:58-63 | A store starts with one fresh certificate. |
| `CertRotation.CertStore.CertHashes` | crates/web/src/wt_cert.rs:67-73 | The serving certificate's hash first, then the successor's. |
| `CertRotation.CertStore.RotateIfNeeded` | crates/web/src/wt_cert.rs:76-115 | The new store and whether the serving certificate changed. |
| `CertRotation.AfterHealthy` | crates/web/src/wt_cert.rs:76-115 | At most two hours apart, checks keep the store's schedule in every run. |
| `CertRotation.NeverExpired` | crates/web/src/wt_cert.rs:8-16 | In such a run no instant, between checks either, has an expired serving certificate. |
| `CertRotation.SafeGapExactly` | crates/web/src/wt_cert.rs:8-16 | An interval between checks is safe exactly when it is at most two hours. |
| `CertRotation.TickIsSafe` | crates/web/src/wt_cert.rs:8-16 | The hourly tick is safe, twice as long still is, and a second more is not. |
| `CertRotation.LongerGapExpires` | crates/web/src/wt_cert.rs:8-16 | Any longer interval has a run in which a client meets an expired certificate. |
| `CertRotation.SwapPromotesAdvertised` | crates/web/src/wt_cert.rs:76-115 | A swap promotes the successor generated before, with more than a day left, whose hash was advertised throughout the previous twenty hours. |
| `CertRotation.SuccessorWaits` | crates/web/src/wt_cert.rs:76-115 | A successor, once generated, stays the advertised one until it is promoted. |
| `CertRotation.FetchedHashesStayGood` | crates/web/src/wt_cert.rs:67-115 | Hashes fetched at one time cover whatever is served in the following twenty hours. |
| `Handshake.AcceptedClientKnowsCertificate` | crates/web/src/auth.rs:50-60 | A client whose token is accepted fetched a hash list that covers the certificate serving it. |
| `UniRouter.Router.Register` | crates/web/src/daemon.rs:44-53 | A parked stream is handed over at once; otherwise the caller waits. |
| `UniRouter.Router.Deliver` | crates/web/src/daemon.rs:55-63 | A stream is sent to the caller waiting for it, and lost if that caller dropped its receiver; otherwise it is parked. |
| `UniRouter.Router.CancelAll` | crates/web/src/daemon.rs:65-69 | Waiting callers and parked streams go. |
| `UniRouter.WaitingParkedDisjoint` | crates/web/src/daemon.rs:44-69 | In every run no stream is parked while its caller waits. |
| `UniRouter.EpochMatched` | crates/web/src/daemon.rs:44-63 | Between cancellations each stream is sent to exactly the caller registered under its id. |
| `UniRouter.OrderIrrelevant` | crates/web/src/daemon.rs:44-63 | In any order the same calls leave the same callers waiting and streams parked and send the same streams to the same callers. |
| `UniRouter.LostExactly` | crates/web/src/daemon.rs:55-63 | A stream is lost exactly when its caller had dropped its receiver before the delivery. |
| `UniRouter.CancelStartsOver` | crates/web/src/daemon.rs:65-69 | What came before a cancellation leaves only the streams already sent. |
| `ActorActivity.ActorActivityRegistry.Record` | crates/web/src/actor_activity.rs:35-80 | An event becomes its actor's entry unless the held one is later; a line that names no actor changes nothing. |
| `ActorActivity.ActorActivityRegistry.ListRecent` | crates/web/src/actor_activity.rs:86-105 | Old entries are dropped and the rest listed. |
| `ActorActivity.PruningInvisible` | crates/web/src/actor_activity.rs:86-105 | Every listing is the one of a registry that forgets nothing. |
| `ActorActivity.KeepAllIsLatest` | crates/web/src/actor_activity.rs:69-80 | The entry of an actor is its latest event. |
| `ActorActivity.ListingExactly` | crates/web/src/actor_activity.rs:35-105 | An actor is listed exactly when some event of theirs lies in the window, with the latest one's time and action. |
| `HttpRoutes.NormalisedExactly` | crates/core/src/defs/service.rs:433-443 | Two spellings are one route exactly when they differ in trailing slashes only. |
| `HttpRoutes.NormalStays` | crates/core/src/defs/service.rs:433-443 | A normal spelling is its own. |
| `HttpRoutes.HttpServiceDef.RegisterRoute` | crates/core/src/defs/service.rs:268-279 | The prefix exists afterwards and any declaration on it is kept. |
| `HttpRoutes.HttpServiceDef.RecordBinding` | crates/core/src/defs/service.rs:301-321 | A redirect refuses to be bound; anything else becomes bound. |
| `HttpRoutes.HttpServiceDef.DeclareRedirect` | crates/core/src/defs/service.rs:778-801 | The root, a bound prefix and settings a redirect cannot carry are refused. |
| `HttpRoutes.HttpServiceDef.AdjustRoute` | crates/core/src/defs/service.rs:811-824 | A setting a redirect cannot carry is refused on one. |
| `HttpRoutes.AlwaysConsistent` | crates/core/src/defs/service.rs:262-321 | In every run of builder calls no prefix is both redirected and bound, no redirect holds a setting it cannot carry, and every bound prefix is marked. |
| `HttpRoutes.RefusedChangesNothing` | crates/core/src/defs/service.rs:778-824 | A refused call leaves the table as it was, though builders create the entry before they decide. |
| `HttpRoutes.StepLocal` | crates/core/src/defs/service.rs:262-321 | A call reads and writes the entry of its own prefix only. |
| `HttpRoutes.MarkStays` | crates/core/src/defs/service.rs:262-321 | What an accepted call declared about a prefix, balance aside, is never undone by later calls. |
| `HttpRoutes.DifferentPrefixesCommute` | crates/core/src/defs/service.rs:496-515 | Calls about different prefixes may be made in either order. |
| `HttpRoutes.NeverBoth` | crates/core/src/defs/service.rs:778-824 | In no order can one prefix have both an accepted redirect and an accepted pod binding, compression, rate limit or header operation a redirect cannot carry. |
| `HttpRoutes.RedirectAcceptedExactly` | crates/core/src/defs/service.rs:778-801 | A redirect is accepted exactly when it is not on the root or frozen, no binding and no lasting setting was accepted on its prefix before, and the balance last accepted there is the default. |
| `HttpRoutes.BalanceTakenBack` | crates/core/src/defs/service/proxy.rs:1408-1434 | A non-default balance and a redirect are both accepted only if an accepted call between them set the default again. |
| `HttpRoutes.BalanceThenRedirect` | crates/core/src/defs/service/proxy.rs:801-832 | And then they are, for every balance and every prefix but the root. |
| `VolumePaths.DepthExactly` | crates/core/src/defs/volume.rs:32-62 | Counting depth refuses a path exactly when it leaves the root at some point, and otherwise counts where it ends. |
| `VolumePaths.VolumePathDepth` | crates/core/src/defs/volume.rs:32-62 | The loop accepts exactly absolute paths without NUL that never leave the volume. |
| `VolumePaths.JoinComponents` | crates/core/src/defs/volume.rs:67-70 | A joined path says the directory's components, then the file's. |
| `VolumePaths.JoinAccepted` | crates/core/src/defs/volume.rs:64-70 | A joined path that is never checked would pass the check for written files. |
| `VolumePaths.VolumeDef.Write` | crates/core/src/defs/volume.rs:147-171 | A write is recorded exactly when the volume is not frozen and the path names a file inside it. |
| `VolumePaths.VolumeDef.WriteDir` | crates/core/src/defs/volume.rs:173-188 | Bundle files are recorded under the directory, and every recorded write stays one inside the volume. |
| `VolumePaths.NormalisePath` | crates/core/src/runtime/definition/bundle.rs:75-95 | The loop yields the resolved path, and refuses exactly NUL, absolute and escaping paths. |
| `VolumePaths.BundlePlain` | crates/core/src/runtime/definition/bundle.rs:75-95 | A normalised path holds only plain names. |
| `VolumePaths.StrippedPlain` | crates/core/src/defs/app/file.rs:36-54 | Stripping a directory's text off a file's path leaves a plain path. |
| `VolumePaths.BundleFilesLandInside` | crates/core/src/defs/volume.rs:173-188 | Any bundle file under any bundle directory, written to any accepted directory, lands on a path the volume accepts. |
| `VolumePaths.ValidateMountpoint` | crates/core/src/defs/container.rs:15-47 | A mount point is refused exactly when it has NUL, is relative or resolves to a forbidden place. |
| `VolumePaths.RenderPop` | crates/core/src/defs/container.rs:15-47 | Popping the last component of a canonical path's text drops the last name, and the root stays. |
| `VolumePaths.RenderPush` | crates/core/src/defs/container.rs:32-34 | Pushing a name onto a canonical path's text appends it. |
| `VolumePaths.ResolutionIdempotent` | crates/core/src/defs/container.rs:15-47 | A canonical path resolves to itself. |
| `RelayFrames.Reader.ReadLine` | crates/protocol/src/canopy.rs:219-240 | Up to the first newline or the limit, however the stream is chunked. |
| `RelayFrames.Reader.ReadToEnd` | crates/protocol/src/canopy.rs:241-256 | The rest of the stream up to the limit, however it is chunked. |
| `RelayFrames.Reader.ReadFrame` | crates/protocol/src/canopy.rs:219-257 | The frame depends on the bytes only, never on their chunks. |
| `RelayFrames.WriteFrame` | crates/protocol/src/canopy.rs:201-216 | The header's line, then the body. |
| `RelayFrames.Reader.FillBuf` | crates/protocol/src/canopy.rs:224-231 | An empty buffer means the end of the stream and nothing else. |
| `RelayFrames.RoundTrip` | crates/protocol/src/canopy.rs:194-257 | A written frame reads back exactly when header and body are within their limits, and is too large otherwise. |
| `RelayFrames.CutExactly` | crates/protocol/src/canopy.rs:219-257 | What every truncation of a written frame reads as. |
| `LineSplitter.SplitJoins` | crates/ctl/src/logs.rs:56-72 | The lines and the partial line are the stream. |
| `LineSplitter.SplitUnique` | crates/ctl/src/logs.rs:56-72 | There is no other way to read a stream as lines. |
| `LineSplitter.SplitMore` | crates/ctl/src/logs.rs:56-72 | More input never changes a line already complete. |
| `LineSplitter.TakeLines` | crates/ctl/src/logs.rs:57-68 | The inner loop takes every complete line off the buffer and leaves the partial one. |
| `LineSplitter.Follow` | crates/ctl/src/subscribe.rs:87-105 | What is printed depends on the bytes received only, not on how they were chunked. |
| `LineSplitter.FollowToEnd` | crates/ctl/src/logs.rs:39-82 | So does a log followed to its end, partial last line included. |
| `LineSplitter.DrainStatusMessages` | crates/ctl/src/forward.rs:80-99 | The messages of all complete lines, in order, and the partial line kept. |
| `LineSplitter.FollowStatus` | crates/ctl/src/forward.rs:80-99 | Status messages do not depend on chunking. |

## Left out

- Transport, TLS, certificate and hash generation, containers, systemd, the filesystem and the database engine.
- The Rhai engine and the parsing of builder maps; JSON decoding is a function given to the model.
- `rt.write`: a call skipped by its kind when the log has it, which otherwise fails or is logged as a command is.
- Params and payloads of invocations are opaque texts; an entry whose payload cannot be read is not modelled.
- An exception that leaves an invoked closure and is caught by its caller; `ActionCalls` has that, without the log.
- A closure that catches the exception of an expired stop, a refused invocation, a command that could not be run or a replay mismatch; in the model these end the operation. `rt.stop` leaves the call index where it was when it expires.
- Resources that resolve otherwise in a later pass: a closure's calls name the same ones in every pass. `rt.stop` finds its start by equal resources and overwrites those of the entry it recorded, so a stop whose resources changed is timed anew.
- A barrier with no log entry behind it, which arises only in stub and probe contexts.
- The pending rows of a pass are a map with the order they were pushed in; a row that cannot be inserted, which is logged and skipped, is not modelled.
- A cancel request that arrives in the middle of a pass; a pass is cancelled or not from its beginning.
- The scheduler, the reconciler and the poll cadence of suspended operations.
- Read errors during start-up, and what a replayed operation does after start-up; fault records carry the app or instance only.
- The delay between a certificate swap and the restart of the WebTransport endpoint.
- `CertRotation.CertStore.constructor`: the certificate's validity starts at the instant the store is created.
- `CanopyOffers.CanopyState.MakeOffer`: does not model the wrap-around of the 64-bit sequence counter, which no run reaches.
- The two halves of a publish are separate in the event broker's model only; elsewhere a publish is one step.
- `ActorActivity.ActorActivityRegistry.Record`: the parsing of an event line is given to the model as its result.
- One client stands for all clients of the event broker, since clients do not affect each other.
- Interrupts and write errors while the command line tool follows a stream; they end it.
- Display names and rendered action texts are opaque values.
- Proxy settings other than whether a redirect can carry them, and every one-branch validator (image references, limits, signal names, capabilities).
