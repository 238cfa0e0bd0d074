# Verification of pi-threads

pi-threads is a daemon that supervises a bounded pool of Pi worker processes and multiplexes the
turns of many threads over them.  This project models its concurrent core in Dafny and proves what
the daemon relies on.  `dafny verify dfyconfig.toml` checks everything.

How the code is modelled:

- **Scheduler and turn lifecycle** (`Pools`, `Scheduler*`).  Every asynchronous method of the pool
  and the service is cut at its awaits.  What runs between two awaits, or one event from outside, is
  a `Step` on a `State`: worker records, the pool's map, the recovery timer, the holder of the
  lifecycle mutex as a program counter (`Lock`), the service's maps and its outstanding operations.
  `Core` is the invariant of that machine; `SchedulerRuns` proves it for every run, `SchedulerResults`,
  `SchedulerOutcomes`, `SchedulerProgress`, `SchedulerEndings` and `SchedulerTerminals` say what it means.
  Any worker in the pool may report at any time, also one that was given up; `SchedulerReports` and
  `SchedulerCounts` say exactly what such a report endangers.  `WorkerPools` and `Services` are the
  objects themselves, with methods that change their fields in place; each method is proved to be one
  of the machine's steps or functions, so the invariant holds of the objects after any calls.
- **Event bus** (`EventBuses`).  A class with its replay ring, its pending queue and its
  subscribers.  Listeners are an arbitrary finite tree of emit, subscribe, unsubscribe and throw.
- **Streams** (`Streams`, `TurnStreams`, `EndToEnd`).  Classes whose methods may be called in any order;
  `EndToEnd.TurnExchange` owns a bus and a turn stream and couples them as the HTTP transport does.
- **Wire** (`Utf8`, `Lines`, `Sse`, `SseReaders`, `SseSizes`, `SseWriters`, `Wire`, `HttpClients`, `HttpServers`).
  UTF-8 decoding byte by byte (WHATWG Encoding Standard, section 8.1.1), server-sent events (WHATWG
  HTML Living Standard, sections 9.2.5 and 9.2.6, the subset that the reader implements), the JSON
  protocol checks, and both loops.
- **Worker RPC** (`RpcBooks`, `RpcWorkers`) and **session catalog** (`Catalogs`), classes over a value
  that records what was asked, written and settled, and over a modelled file system.
- **Verdicts**: how a settled run is judged.

Assumptions: session ids returned by `new_session`, `fork` and `clone` are new to the daemon
(`Unheard`); Pi changes its session only on those commands and on `switch_session`; a worker that was
stopped or has left the pool reports nothing more once its process has closed, and processes close
before shutdown ends; the daemon names a turn when it admits it, after the request; listeners outside the service do not call the pool; a reply and the code that
awaits it run before the next outside event; printed JSON is read back and contains no newline and no
final carriage return (`Lawful`), event ids are non-empty single-line texts (`NamesEvents`).

Findings about the code:

- The bus may publish more than one terminal event for a turn.  A time-out marks the worker crashed
  before the service looks it up, so the worker keeps the turn in its record and its exit publishes
  another one.  `LateReports.ExitAnnouncesAgain` is a run, `AnnouncesAgainIff` says exactly when, and
  `StaleArises` which step brings it about.  The service acts on the first only (`EndedForGood`) and a
  turn stream ends at the first.
- DESIGN.md:327-329 says a worker carries the target thread during `switch_session`.  The code detaches
  the old thread first and publishes the new one after verification; the model follows the code.
- `mapWorkerEvent` writes a worker's state whatever it was, so a report that arrives after the worker
  timed out makes it count as alive again.  When its thread has been taken over meanwhile, or is about
  to be by a session switch in flight, two workers come to serve one thread: `LateReportAfterRun` and
  `LateReportDuringSwitch` are runs, `LateReportKeepsLeaseIff` is the exact condition.  When a turn
  ended while its worker was unavailable, its reservation is never returned and the worker that is back
  cannot be reclaimed before it exits: `LateReportLosesReservation` and `LateReportKeepsCountIff`.
  Everything else (releases are owed, protection, exclusion, endings, size and minimum) holds over all
  runs, those reports included.
- `resolveThread` forgets a session before it awaits the listing.  When another operation caches the
  thread again meanwhile, a baselined thread whose file has vanished is answered from memory:
  `VanishedIsAnswered` shows it, `EndResolve` says exactly when.
- `encodeSse` drops an empty id and does not refuse line breaks in event or id; `SurvivesIff` gives the
  exact condition under which a frame survives.

## Model

| member | source | states |
|---|---|---|
| `SchedulerRuns.StepKeeps` | src/worker/worker-pool.ts:119-480 | Whatever step comes next (worker report in time or late, crash, timer, request, reply, shutdown), the whole scheduler invariant survives it: at least as many reservations as holders, exact counts and one writer per thread as far as late reports were safe, turn and mutation exclusion, mutex state, history |
| `SchedulerRuns.RunsKeep` | src/worker/worker-pool.ts:119-480 | The invariant holds at the end of every finite run from a state that satisfies it, whatever workers report late in it |
| `SchedulerRuns.InitialCore` | src/worker/worker-pool.ts:37-45 | A freshly constructed daemon satisfies the invariant |
| `SchedulerResults.ReservationsAreHolders` | src/worker/worker-pool.ts:175-206 | In every reachable state a worker is reserved at least as often as operations, running turns and the mutex hold it; and a worker in use exactly as often, unless a late report that was not safe has come before |
| `SchedulerResults.EveryReleaseIsOwed` | src/worker/worker-pool.ts:189-191 | In every reachable state, late reports included, whoever is about to release a worker finds its count at least one, so the clamp at zero is never exercised |
| `SchedulerResults.OneWriter` | src/worker/worker-pool.ts:105-110 | Single writer lease: two workers of the pool that carry the same thread, are not retiring and have neither crashed nor been stopped are the same one, in any reachable state before which every late report was safe |
| `SchedulerResults.RunningTurnIsFound` | src/service/pi-threads-service.ts:851-873 | While the worker of a running turn is available it knows the turn; and lookup by the turn's thread finds exactly that worker, unless an unsafe late report has come before |
| `LateReports.LateReportAfterRun` | src/worker/worker-pool.ts:427-437 | A concrete run from a fresh daemon after which a timed-out worker's late report makes two workers serve one thread at once |
| `LateReports.LostWorkerIsReplaced` | src/worker/pi-rpc-worker.ts:181-187 | That run, step by step: start, a saved thread, send, prompt time-out, failure of the turn, second send to the same thread on a new worker |
| `SchedulerOutcomes.AcquisitionDelivers` | src/worker/worker-pool.ts:112-173 | Whatever lifecycle step grants an operation its worker, the worker has neither crashed nor stopped, is rooted at the requested directory, carries no thread for a new one and exactly the requested thread for a session, has exactly one reservation, and is marked running for a mutation |
| `SchedulerOutcomes.CapacityExactly` | src/worker/worker-pool.ts:225-256 | In a running pool an operation for which a worker is selected is refused if and only if the pool is full, no worker can be reused and none can be evicted; never at the second capacity check, after a worker was evicted or replaced for it |
| `SchedulerOutcomes.AssignedExactly` | src/worker/worker-pool.ts:126-148 | When lookup finds a worker for the thread: busy or capacity exactly when it is not quiescent, or elsewhere and not reclaimable; the same worker exactly when quiescent in the right directory; replaced exactly when reclaimable elsewhere |
| `SchedulerOutcomes.RetainedExactly` | src/service/pi-threads-service.ts:636-650 | Direct use of a thread's worker: reads share it; sends and mutations take it only in the session's directory and are busy exactly when it works |
| `SchedulerEffects.ReapsExactly` | src/worker/worker-pool.ts:396-415 | The reaper retires the first candidate that is still reclaimable, with the rest to follow, if and only if there is one and the pool is above its minimum; otherwise it only schedules recovery |
| `SchedulerEffects.WorkerIsFreed` | src/worker/worker-pool.ts:189-206 | Across every step that ends an operation and gives its worker back, in every reachable state: one reservation less; a worker in use has the time noted, and with no reservation and no turn left it is assigned or idle, and then, with no abort or command in progress, quiescent and, if its thread is saved or it has none, reclaimable |
| `SchedulerEffects.FreedWorkerIsGranted` | src/service/pi-threads-service.ts:636-650 | The next send or mutation of a freed worker's thread in its directory is granted that worker |
| `SchedulerEffects.OnlyIdleWorkersAreTaken` | src/worker/worker-pool.ts:208-223 | Whichever step marks a worker retiring or takes its thread away finds it idle or assigned, with no reservation, turn, abort or command, and its thread saved; except a worker whose own session switch failed |
| `SchedulerEffects.RequestsExactly` | src/service/pi-threads-service.ts:681-689 | A request is taken up if and only if its thread can be resumed and, to write to it, has neither a turn nor a mutation; it then has claimed its thread, and otherwise nothing has changed |
| `SchedulerEffects.SendIsAdmitted` | src/service/pi-threads-service.ts:257-268 | An admitted send's worker and the service's map name each other's turn and thread, and the worker is running |
| `SchedulerEffects.StartIsAdmitted` | src/service/pi-threads-service.ts:211-233 | An admitted start binds thread and worker under a new turn name; the worker is running exactly if it was given a prompt |
| `SchedulerEffects.MutationLeavesThread` | src/service/pi-threads-service.ts:691-722 | A mutation that ends leaves its thread to others and its worker with the forked or cloned thread if there is one |
| `SchedulerEffects.TerminalEventMeans` | src/service/pi-threads-service.ts:851-895 | A terminal event of the running turn, and no other, takes the turn off the books; its worker forgets it and passes to the cleanup if and only if it is the one found for the thread |
| `SchedulerEffects.ReportEndsTurn` | src/worker/worker-pool.ts:318-340 | When a run settles or the process exits, the turn running there has ended |
| `SchedulerEffects.ReportMeans` | src/worker/worker-pool.ts:427-515 | A report moves the worker to running or assigned, whatever it was; a settled run ends the abort of its own turn only |
| `SchedulerEffects.ExitMeans` | src/worker/worker-pool.ts:318-346 | An exited worker is out of the pool, crashed and without a turn; recovery is armed exactly if the pool is then smaller than both bounds, from the first delay again if the worker ran for long enough |
| `SchedulerEffects.MinimumIsFilled` | src/worker/worker-pool.ts:367-372 | A recovery starts another worker if and only if the pool is running, waits for no timer and is smaller than both bounds |
| `SchedulerEffects.RetirementMeans` | src/worker/worker-pool.ts:264-268 | A worker that is given up is marked retiring and stopped, and lookup finds it for no thread |
| `SchedulerEffects.FailedSwitchMeans` | src/worker/worker-pool.ts:163-171 | After a failed switch nobody holds the worker; a living one is retired before the operation is refused, a dead one is left and the operation refused at once |
| `SchedulerEffects.CommandsMean` | src/worker/pi-rpc-worker.ts:120-131 | A command is counted on its worker until it ends, its end is a use of the worker, and one that times out makes the worker a crashed one |
| `SchedulerEffects.TimersMean` | src/worker/worker-pool.ts:286-292 | Shutting down clears the timer and asks for nothing; a timer that fires clears itself and asks for one check of the pool's size |
| `SchedulerEffects.StopMeans` | src/worker/worker-pool.ts:285-297 | Shutting down stops every worker of the pool, and none is found any more |
| `SchedulerEffects.AbortIsMarked` | src/service/pi-threads-service.ts:307-312 | A worker is marked with the turn that is being aborted |
| `SchedulerEffects.AbortIsForgotten` | src/service/pi-threads-service.ts:322-327 | The mark goes when that abort, and no other, has ended |
| `SchedulerClaims.ClaimsAreOwned` | src/service/pi-threads-service.ts:673-722 | In every reachable state a thread is locked exactly as long as somebody works on it: it has an unadmitted turn if and only if a send for it is outstanding, and is being mutated if and only if a mutation of it is outstanding |
| `SchedulerClaims.RunsOwned` | src/service/pi-threads-service.ts:844-849 | Over every run no reserved turn and no mutation outlives the operation it belongs to |
| `SchedulerResults.TurnsExcludeMutations` | src/service/pi-threads-service.ts:673-722 | In every reachable state no thread is both in active turns and in session mutations, and at most one operation has reserved a thread |
| `SchedulerEndings.TurnEndsByItself` | src/service/pi-threads-service.ts:851-873 | Across any step, an active turn disappears only through a terminal event of exactly that thread and turn once it was admitted, and then counts as ended; or together with the failure of the very request that had reserved it |
| `SchedulerEndings.EndedForGood` | src/service/pi-threads-service.ts:851-895 | Once the service has acted on a turn's terminal event, then over the rest of every run the turn is never active again and every further terminal event naming it changes nothing, so it gives its reservation back once |
| `SchedulerEndings.EndedGrows` | src/service/pi-threads-service.ts:851-873 | No step forgets that a turn has ended |
| `SchedulerResults.WorkersAreProtected` | src/worker/worker-pool.ts:208-268 | Across any step a worker becomes retiring, or loses its thread, only when at that instant it is quiescent (no reservation, running or aborting turn, pending command) and its thread is saved; the one exception is a worker whose own session switch failed. It changes from one thread to another only by the publication of the fork or clone that holds it, and gets a turn only by the admission of the operation that holds it. Retiring is never undone |
| `SchedulerResults.RetiringIsUnreserved` | src/worker/worker-pool.ts:264-268 | A retiring worker has no reservation in any reachable state |
| `SchedulerResults.SizeIsBounded` | src/worker/worker-pool.ts:299-314 | The pool never holds more workers than its maximum, starting and retiring ones included |
| `SchedulerResults.MinimumIsRecovered` | src/worker/worker-pool.ts:367-394 | Once started and not stopped, with no lifecycle operation and no recovery outstanding, the pool has at least minWorkers or at least maxWorkers workers, or a recovery timer is pending; once shutdown has completed it is empty and stays without a timer |
| `SchedulerResults.RecoveryDelays` | src/worker/worker-pool.ts:390-393 | The next delay is min(1000 * 2^k, 30000), k being the recoveries scheduled since the last reset |
| `SchedulerResults.WorkersAreDedicated` | src/worker/worker-pool.ts:225-262 | With cross-thread reuse disabled every worker process is reserved for assignment at most once and bound to at most one thread, over every run |
| `SchedulerProgress.StepProgress` | src/worker/worker-pool.ts:285-415 | Every step keeps: a started, running pool that is too small is attended by a timer, a waiting or running recovery, or the error handler of a failed start; delays follow the back-off; a stopped pool has no timer, a drained one no workers |
| `SchedulerProgress.BackoffDoubles` | src/worker/worker-pool.ts:393 | Doubling up to the cap is the closed form min(1000 * 2^k, 30000) |
| `SchedulerTurns.SettlesKeeps` | src/service/pi-threads-service.ts:851-895 | Any terminal event, on time, late, duplicate or foreign, keeps the invariant: a turn's reservation passes to its cleanup exactly when its worker is still the one found for the thread |
| `SchedulerTurns.ActiveIsFound` | src/service/pi-threads-service.ts:869-873 | Under the invariant, and as long as no late report was unsafe, lookup by a running turn's thread returns the turn's own worker if it is available |
| `SchedulerSteps.AgentEventKeeps` | src/worker/worker-pool.ts:427-480 | Run starts and settlements reported by any worker that is still in the pool, also by one that was given up, keep the invariant |
| `Pools.ChoiceMeans` | src/worker/worker-pool.ts:225-256 | For each worker of the pool: at rest and fitting it is reused unless an older one is; at rest at all it keeps a full pool from being out of capacity; only the least recently used worker at rest is evicted, and only from a full pool |
| `Pools.ChoiceIsUnique` | src/worker/worker-pool.ts:225-256 | The selection rule (first eligible worker of the directory; spawn below the limit; least recently used reclaimable victim when full; capacity exactly when nothing is reclaimable) leaves no freedom |
| `Pools.Find` | src/worker/worker-pool.ts:105-110 | Lookup returns a worker that serves the thread, and none only if no worker serves it |
| `WorkerPools.WorkerPool.FindByThread` | src/worker/worker-pool.ts:105-110 | The loop over the workers computes that lookup |
| `WorkerPools.WorkerPool.Retain` | src/worker/worker-pool.ts:175-187 | One more reservation, or refusal exactly when the pool is stopped or the worker is gone, retiring or unavailable |
| `WorkerPools.WorkerPool.Release` | src/worker/worker-pool.ts:189-206 | One reservation less; in use its time is noted, and unreserved and without a turn it is assigned or idle again, by its thread; a crashed, stopped or retiring worker keeps its state |
| `WorkerPools.WorkerPool.ReserveForAssignment` | src/worker/worker-pool.ts:258-262 | Reserves, claims and detaches the previous thread in one piece |
| `WorkerPools.WorkerPool.FirstEligible` | src/worker/worker-pool.ts:226-239 | The first reclaimable worker of the directory that may be reused, or the proof that there is none |
| `WorkerPools.WorkerPool.Victim` | src/worker/worker-pool.ts:240-243 | The least recently used reclaimable worker, the first of equals, or the proof that there is none |
| `WorkerPools.WorkerPool.Select` | src/worker/worker-pool.ts:225-256 | The decision meets the complete selection rule, for every pool |
| `WorkerPools.WorkerPool.ReapCandidates` | src/worker/worker-pool.ts:396-404 | Exactly the reclaimable workers idle for the time to live, least recently used first, the order of insertion among equals; none when stopped or without a time to live |
| `WorkerPools.Inserted` | src/worker/worker-pool.ts:404 | Stable insertion into the sorted list of candidates |
| `WorkerPools.WorkerPool.ScheduleMinimumRecovery` | src/worker/worker-pool.ts:374-394 | Arms a timer exactly when the pool is running, has none, and is smaller than both minWorkers and maxWorkers, with delay min(1000 * 2^k, 30000) |
| `WorkerPools.WorkerPool.Recover` | src/worker/worker-pool.ts:341-345 | A worker that ran long enough resets the back-off before recovery is scheduled |
| `Services.PiThreadsService.constructor` | src/service/pi-threads-service.ts:55-70 | The object starts as the initial state of the step machine |
| `Services.PiThreadsService.ReserveTurn` | src/service/pi-threads-service.ts:249-255 | Claims the thread for a new turn; not found exactly when nobody carries it and it is not saved, busy exactly when it then has a turn or a mutation; one step of the machine |
| `Services.PiThreadsService.BeginMutation` | src/service/pi-threads-service.ts:681-689 | Claims the thread for a mutation under the same conditions, tested in the other order |
| `Services.PiThreadsService.AdmitTurn` | src/service/pi-threads-service.ts:254-268 | Admits the turn; afterwards lookup by its thread finds its worker, unless an unsafe late report has come before |
| `Services.PiThreadsService.AdmitStart` | src/service/pi-threads-service.ts:206-233 | A started thread is admitted under a turn name never used before; one step of the machine |
| `Services.PiThreadsService.EndMutation` | src/service/pi-threads-service.ts:691-721 | A mutation ends: thread released, worker bound to what it now carries, reservation returned |
| `Services.PiThreadsService.RunSettled` | src/worker/worker-pool.ts:469-519 | A settled run, in time or late, ends its own turn, if it had one that was running, and no other; one step of the machine |
| `Services.PiThreadsService.HandleTerminal` | src/service/pi-threads-service.ts:851-889 | Ends exactly the named running turn and hands its worker to a cleanup only if it is still found for the thread |
| `Services.PiThreadsService.Finish` | src/service/pi-threads-service.ts:652-662 | Ends a read or cleanup and takes exactly one reservation back |
| `Services.PiThreadsService.FailSend` | src/service/pi-threads-service.ts:272-276 | A failed admission gives up the turn and the worker |
| `Services.PiThreadsService.RunBegan` | src/worker/worker-pool.ts:430-437 | A reported run start, in time or late, is one step of the machine |
| `Services.PiThreadsService.WorkerExited` | src/worker/worker-pool.ts:318-345 | The exit handler is the machine's crash step: worker gone, its turn failed, recovery scheduled |
| `Verdicts.AgentFailureMeans` | src/worker/worker-pool.ts:641-661 | The first message that is a record with stop reason error or aborted gives the failure: that reason, and its error text if it has one |
| `Verdicts.NoFailureMeans` | src/worker/worker-pool.ts:641-655 | A run has not failed if and only if no message of it stopped with an error or was aborted |
| `Verdicts.RunMonitor.AgentSettled` | src/worker/worker-pool.ts:469-515 | With an active turn exactly one of aborted, failed and completed is published, each of which ends the turn: aborted if this turn is being aborted, failed if the last report is about this turn and failed, completed otherwise; without one only an update |
| `EventBuses.QuietMeansDelivered` | src/service/event-bus.ts:32-79 | Between top-level calls every registered listener has been called with exactly the matching events after its cursor or registration, once each, in publication order, however listeners nested emit, subscribe, unsubscribe and throw |
| `EventBuses.ListenerIsCalledIff` | src/service/event-bus.ts:44-57 | A registered listener of a quiet bus has been called with an event of the history after its origin if and only if every field that its filter sets agrees: the thread, the turn, and the type being in a non-empty list |
| `EventBuses.EventBus.EventsSinceIff` | src/service/event-bus.ts:85-93 | An event of the full history is returned if and only if it is among the last replayLimit ones, after the cursor, and every field that the filter sets agrees |
| `EventBuses.EventBus.RemovedIff` | src/service/event-bus.ts:112-126 | A subscription is removed if and only if somebody has given it up or its own listener has thrown |
| `EventBuses.EventBus.CallOne` | src/service/event-bus.ts:115-122 | One listener call: the oldest queued event; a listener that does nothing to the bus stays registered, one that throws is removed |
| `EventBuses.SeenIsPrefix` | src/service/event-bus.ts:112-125 | At every instant, also in the middle of nested calls and for removed or failed listeners, what a listener was called with is a prefix of that sequence |
| `EventBuses.SelectIncreasing` | src/service/event-bus.ts:32-41 | Selected events have strictly increasing sequence numbers, all after the starting point: none is counted twice |
| `EventBuses.RetainedIsSelect` | src/service/event-bus.ts:85-93 | Filtering the bounded ring by sequence number equals filtering the full history, as long as the ring reaches back to the cursor |
| `EventBuses.EventBus.Emit` | src/service/event-bus.ts:32-63 | Appends one event with the next sequence number; nested publications follow it; the history only grows |
| `EventBuses.EventBus.Drain` | src/service/event-bus.ts:44-57 | The delivery loop empties the pending queue |
| `EventBuses.EventBus.VisitAll` | src/service/event-bus.ts:47-56 | One event is offered to everyone registered when it was taken |
| `EventBuses.EventBus.Deliver` | src/service/event-bus.ts:112-125 | Drains one listener's queue unless it is already being drained; a throwing listener is removed |
| `EventBuses.EventBus.Subscribe` | src/service/event-bus.ts:65-79 | Registers after the history, or after an accepted cursor; a refused cursor leaves the bus unchanged |
| `EventBuses.EventBus.Unsubscribe` | src/service/event-bus.ts:81-83 | Removes exactly a registered subscription |
| `EventBuses.EventBus.Position` | src/service/event-bus.ts:95-110 | A cursor is accepted if and only if it names this instance and lies between the ring's start and the newest event; lost exactly for other instances and expired positions; otherwise invalid |
| `EventBuses.EventBus.EventsSince` | src/service/event-bus.ts:85-93 | With an accepted cursor, exactly the matching full history after it, without a gap |
| `EventBuses.EventBus.constructor` | src/service/event-bus.ts:14-26 | An empty bus, nothing delivered |
| `Streams.BufferedStream.Push` | src/protocol/stream.ts:25-40 | A value goes to the waiting reader or to the queue's end, or the stream fails with overflow exactly when the unread bytes would exceed the limit; a closed stream ignores it |
| `Streams.BufferedStream.Finish` | src/protocol/stream.ts:42-46 | Closes once; the open read is told done, or rejected if the close callback throws |
| `Streams.BufferedStream.Fail` | src/protocol/stream.ts:48-56 | Closes once, drops what is unread and rejects the open read |
| `Streams.BufferedStream.Settle` | src/protocol/stream.ts:58-73 | The close callback runs exactly once and the open read is settled exactly once, also when the callback throws |
| `Streams.BufferedStream.Next` | src/protocol/stream.ts:75-87 | Each read gets its own promise; values come first in, first out |
| `Streams.BufferedStream.Close` | src/protocol/stream.ts:89-93 | The consumer drops what is unread and closes |
| `Streams.BufferedStream.constructor` | src/protocol/stream.ts:16-19 | An open, empty stream |
| `TurnStreams.ShownStep` | src/protocol/turn-stream.ts:52-66 | Hearing one more event extends what must be shown by that event alone, unless it is foreign or the turn had ended |
| `TurnStreams.ShownMeans` | src/protocol/turn-stream.ts:52-66 | What is shown of a turn is its acceptance and events of the history that name its thread and turn, none after the first that completes, fails or aborts the turn |
| `TurnStreams.ShownIsAll` | src/protocol/turn-stream.ts:52-66 | An event of the turn is shown unless the last one shown ends the turn |
| `TurnStreams.ShownGrows` | src/protocol/turn-stream.ts:52-66 | What must be shown only grows with what is heard |
| `TurnStreams.TurnStream.constructor` | src/protocol/turn-stream.ts:35-72 | thread/start goes straight to subscribing; thread/send resolves first, and without a thread fails before any request |
| `TurnStreams.TurnStream.Resolved` | src/protocol/turn-stream.ts:74-83 | The subscription is made only while the stream is open, for the canonical thread |
| `TurnStreams.TurnStream.Subscribed` | src/protocol/turn-stream.ts:78-88 | The admission request is issued only after the subscription and only while the stream is open; otherwise the disposer is called at once |
| `TurnStreams.TurnStream.Admitted` | src/protocol/turn-stream.ts:88-93 | Acceptance is exposed before the events heard while it was awaited |
| `TurnStreams.TurnStream.Expose` | src/protocol/turn-stream.ts:90-93 | The stream then holds exactly acceptance and the turn's events heard so far up to the first terminal one |
| `TurnStreams.TurnStream.Deliver` | src/protocol/turn-stream.ts:52-66 | Before acceptance an event is kept within the limit; after it a foreign event changes nothing, one of the turn is pushed if it fits, and the stream is then over if and only if the event is turn.completed, turn.failed or turn.aborted; one that does not fit fails the stream |
| `TurnStreams.TurnStream.EndsWithTurn` | src/protocol/turn-stream.ts:62-66 | A stream that was not cut short is over if and only if an event that completes, fails or aborts exactly the accepted turn has been heard |
| `TurnStreams.TurnStream.OnError` | src/protocol/turn-stream.ts:78-83 | A lost source fails the stream unless it is closed |
| `TurnStreams.TurnStream.Close` | src/protocol/turn-stream.ts:47-51 | Closing disposes of the subscription exactly once, whether it precedes or follows it |
| `TurnStreams.TurnStream.ReadsAreShown` | src/protocol/turn-stream.ts:35-96 | What was read is a prefix of acceptance and exactly the accepted turn's events up to the first terminal; a reader told done without closing has read all of it |
| `EndToEnd.HeardOfTurn` | src/service/event-bus.ts:44-57 | A subscription made before the turn's first event hears the turn's events as a prefix, and all of them once the bus is quiet |
| `EndToEnd.TurnFrom` | src/protocol/turn-stream.ts:67-83 | Subscribing before admission with a thread filter misses nothing of the turn |
| `EndToEnd.ShownPrefix` | src/protocol/turn-stream.ts:63-65 | Events after the first terminal change nothing that is shown |
| `EndToEnd.DeliveredTravels` | src/transport/http.ts:231-245 | What a consumer read of a turn has the shape the wire carries, complete exactly when it ends with the terminal event |
| `Utf8.DecodeConcat` | src/client/sse-reader.ts:18-19 | Streaming decoding of two pieces of bytes equals decoding them at once, also when a character is cut |
| `Utf8.DecodeEncode` | src/client/sse-reader.ts:12-18 | Encoded text is decoded to itself |
| `Utf8.EncodingMeans` | src/client/sse-reader.ts:12-18 | The bytes of a character: the first says how many there are, the others carry six bits each, and no shorter form would do |
| `Utf8.EncodeDecode` | src/client/sse-reader.ts:12-18 | Whatever decodes completely is the encoding of the text it gives: overlong forms, surrogates, stray and missing bytes are all rejected |
| `Utf8.MarkIsDropped` | src/client/sse-reader.ts:12-18 | One byte order mark at the very start is dropped |
| `Lines.CompleteConcat` | src/worker/pi-rpc-worker.ts:218-227 | Splitting text into lines can be done piece by piece |
| `Sse.LineMeans` | src/client/sse-reader.ts:36-39 | A line without a colon is a name without a value; otherwise the name goes up to the first colon and one space after it is dropped |
| `Sse.JoinedMeans` | src/client/sse-reader.ts:28-29 | Data lines are joined by newlines in order |
| `Sse.ReturnsDoNotMatter` | src/client/sse-reader.ts:22-24 | Carriage returns before the newlines do not change the frames, as long as everything fits the limit |
| `Sse.TooHeavy` | src/client/sse-reader.ts:26-27 | A block that exceeds the limit before its blank line ends the reading with an overflow, whatever follows |
| `Sse.ContinueIsInterpret` | src/client/sse-reader.ts:20-48 | Interpreting line by line, as the reader does, equals the block-wise definition: last event type, last id without NUL, data lines joined, blocks ended by blank lines, each within the byte limit |
| `SseReaders.ReadSse` | src/client/sse-reader.ts:11-50 | For every sequence of chunks the reader yields exactly the frames of the text they decode to and ends with overflow, broken UTF-8 or normally, as the block-wise definition says |
| `SseReaders.TakeLines` | src/client/sse-reader.ts:20-45 | The inner loop consumes exactly the complete lines of the buffer |
| `SseReaders.OutcomeIgnoresChunks` | src/client/sse-reader.ts:18-49 | For decodable bytes the outcome does not depend on where the chunks are cut |
| `SseReaders.ReceivedIsJoint` | src/client/sse-reader.ts:18-19 | Chunks decode one by one exactly when their concatenation decodes, to the same text |
| `SseWriters.EncodeSse` | src/transport/sse.ts:8-13 | Refuses exactly frames whose encoding exceeds the limit in bytes |
| `SseWriters.RoundTrip` | src/transport/sse.ts:8-24 | Any frames accepted by the printer, with heartbeats between them and cut into chunks at any bytes, are read back exactly and without overflow |
| `SseWriters.WireMeans` | src/transport/sse.ts:8-24 | The text of printed frames and heartbeats means those frames |
| `SseWriters.SurvivesIff` | src/transport/sse.ts:8-13 | A printed frame that fits is read back as itself if and only if event, data and id end in no carriage return, contain no newline, and the id is not empty and contains no NUL |
| `SseWriters.FramesAreWellread` | src/client/sse-reader.ts:38-44 | The reader never yields an event type or id with a newline, nor an id with a NUL |
| `Wire.NormalEnd` | src/client/http-client.ts:88-114 | For arbitrary frames: what the client takes is one acceptance followed by events of exactly that thread and turn, and it finishes normally exactly with a terminal event among them as the last |
| `HttpClients.TurnClient.OnFrame` | src/client/http-client.ts:89-110 | One pass of the frame loop: what the checks reject fails the stream with that error; what they accept is pushed if it fits; the stream is then over if and only if it is an event of type turn.completed, turn.failed or turn.aborted |
| `Wire.EventFrameIff` | src/client/http-client.ts:100-106 | An event frame is accepted if and only if a turn has been accepted and the frame is a JSON-RPC notification of exactly that thread and turn, of a known type, with its id, time and payload, under its own event id |
| `Wire.AcceptanceFrameIff` | src/client/http-client.ts:92-99 | An acceptance is taken if and only if none has come and the frame answers this very request, without an error, with an accepted turn |
| `Wire.ReportedErrorIff` | src/client/http-client.ts:209-218 | A reported error is what the stream fails with; a second acknowledgement and a malformed stream error are protocol errors |
| `Wire.KnownTypes` | src/protocol/events.ts:1-26 | The known event types are exactly the daemon's twenty-four |
| `HttpClients.TurnClient.OnEnd` | src/client/http-client.ts:111-112 | The end of the input before a terminal event is a failure, always |
| `HttpClients.TurnClient.OnReadError` | src/client/http-client.ts:113 | A read error fails the stream |
| `HttpClients.TurnClient.Close` | src/client/http-client.ts:87 | The consumer may close at any time |
| `HttpClients.TurnClient.EndsProperly` | src/client/http-client.ts:75-115 | A normal end not caused by the consumer comes only after one acceptance and a terminal event of exactly that thread and turn, nothing dropped |
| `HttpClients.ServerIsUnderstood` | src/transport/http.ts:230-245 | The client's checks accept what the server writes for a turn and yield the same frames, finishing exactly when the terminal event is among them |
| `HttpClients.WireDelivers` | src/transport/http.ts:229-245 | From the daemon's turn stream through printer, chunks and reader to the client: exactly the same frames |
| `HttpServers.ServeTurn` | src/transport/http.ts:229-249 | The streaming loop writes every frame up to the first that is too large, then the error as a response before acceptance and as a stream error after it |
| `HttpServers.FailureReachesClient` | src/transport/http.ts:246-249 | When the server's stream fails the client has exactly the frames before it and fails with the reported error |
| `HttpServers.ErrorChecks` | src/client/http-client.ts:209-218 | Both forms of error frame are read as that remote error |
| `HttpServers.ReportFits` | src/transport/http.ts:389-417 | The error frame that is written is the fault's own if that fits, and fits in any case as long as the substitute does |
| `RpcWorkers.PiRpcWorker.constructor` | src/worker/pi-rpc-worker.ts:57-61 | No commands, nothing pending |
| `RpcWorkers.PiRpcWorker.Command` | src/worker/pi-rpc-worker.ts:120-132 | Counts the command; only bypass commands skip the queue |
| `RpcWorkers.PiRpcWorker.RunNext` | src/worker/pi-rpc-worker.ts:162-169 | The next normal command runs only when none is outstanding |
| `RpcWorkers.PiRpcWorker.Execute` | src/worker/pi-rpc-worker.ts:171-208 | Writes under a fresh id while the process lives; afterwards nothing is written |
| `RpcWorkers.PiRpcWorker.Settle` | src/worker/pi-rpc-worker.ts:234-239 | Settles one pending command and takes it off the count |
| `RpcWorkers.PiRpcWorker.RejectPending` | src/worker/pi-rpc-worker.ts:210-216 | Every open command fails with the error; ended ones are untouched; nothing is written |
| `RpcWorkers.PiRpcWorker.TimesOut` | src/worker/pi-rpc-worker.ts:181-187 | The timed-out command and all other open ones fail, nothing stays pending, the worker is crashed; from then on nothing is written until somebody writes it a live state |
| `RpcWorkers.PiRpcWorker.Exits` | src/worker/pi-rpc-worker.ts:99-106 | Nothing stays pending after exit; a stopped worker stays stopped |
| `RpcWorkers.PiRpcWorker.WriteFailed` | src/worker/pi-rpc-worker.ts:189-198 | A failed write ends its command unless it has ended |
| `RpcWorkers.PiRpcWorker.HandleStdout` | src/worker/pi-rpc-worker.ts:218-246 | However output is cut, the lines handled are those of the whole output, commands end as these lines say one after the other, and the emitted events are those of its lines |
| `RpcWorkers.PiRpcWorker.TakeLine` | src/worker/pi-rpc-worker.ts:228-244 | One line does to commands and events what LineMeans says of it |
| `RpcWorkers.LineMeans` | src/worker/pi-rpc-worker.ts:218-246 | A line matters only if it parses to a record. One with type response and the text id of a pending command ends exactly that command, answered with the record if success is truthy and rejected as a Pi error otherwise; one with an id nobody waits for does nothing; every other record is an event and ends nothing |
| `RpcWorkers.FirstAnswerDecides` | src/worker/pi-rpc-worker.ts:201-208 | Over any sequence of lines the first one that answers a command settles it for good, by its success field; later ones for the same id change nothing |
| `RpcWorkers.NobodyAnswers` | src/worker/pi-rpc-worker.ts:231-239 | A command that no line answers stays pending and unsettled |
| `RpcWorkers.TimeOutMeans` | src/worker/pi-rpc-worker.ts:181-187 | After a time-out exactly the command whose timer fired is rejected with the time-out, all other open ones with the crash; what had ended and what waits is untouched |
| `RpcWorkers.FailsAllMeans` | src/worker/pi-rpc-worker.ts:210-216 | After a rejection of everything pending every command that was open has that error, nothing else has ended and nothing was written |
| `RpcWorkers.OneNormalAtATime` | src/worker/pi-rpc-worker.ts:162-169 | At most one normal command is outstanding |
| `RpcWorkers.WrittenInCallOrder` | src/worker/pi-rpc-worker.ts:162-169 | Normal commands are written in call order |
| `RpcWorkers.UnfinishedCount` | src/worker/pi-rpc-worker.ts:53-55 | The command count is the number of commands waiting or written and not ended |
| `Catalogs.PiSessionCatalog.constructor` | src/session/catalog.ts:32-35 | An empty catalog |
| `Catalogs.PiSessionCatalog.BeginResolve` | src/session/catalog.ts:52-72 | A path is read; another name yields only a session of that id, read from its file now or from memory, the latter exactly if it has no file and is unsaved; otherwise it is forgotten and listing follows |
| `Catalogs.PiSessionCatalog.EndResolve` | src/session/catalog.ts:72-77 | After the listing: a listed session of that id if there is one; without one the answer comes from memory if and only if the session was cached again since the listing began and not dropped after that, and not found otherwise |
| `Catalogs.PiSessionCatalog.Resolve` | src/session/catalog.ts:52-77 | While nothing else happens, a resolved session is what a file says now, or was never saved and never baselined |
| `Catalogs.PiSessionCatalog.UpdateFromWorkerState` | src/session/catalog.ts:144-173 | A session with a file is remembered, no longer unsaved, and baselined; one without is unsaved exactly if it never had a baseline |
| `Catalogs.PiSessionCatalog.AssertUnchanged` | src/session/catalog.ts:120-142 | Passes if and only if there is no baseline or size, modification time and last entry equal those of the last refresh |
| `Catalogs.PiSessionCatalog.IsPersisted` | src/session/catalog.ts:115-118 | Whether the remembered session has a file: the pool's reclaim question |
| `Catalogs.PiSessionCatalog.Cache` | src/session/catalog.ts:175-179 | Remembers sessions under their ids, the last one of an id staying |
| `Catalogs.CachedAt` | src/session/catalog.ts:175-179 | After caching, an id is answered by one of the cached sessions if there is one and otherwise as before |
| `Catalogs.CachedLast` | src/session/catalog.ts:175-179 | Of several cached sessions of one id the last one is remembered |
| `Catalogs.InfoMeans` | src/session/catalog.ts:285-329 | A file is a session if and only if it has a session header with a text id; the first such header gives the id, or the path if that is empty, and the directory |
| `Catalogs.LastMarkMeans` | src/session/catalog.ts:210-224 | The mark compared for external writers is made of id, type and time of the last entry that is no session header |
| `Catalogs.AppendIsNoticed` | src/session/catalog.ts:128-141 | An appended entry with a new mark fails the check even when size and time are forged |
| `SchedulerReports.LateReportKeepsLeaseIff` | src/worker/worker-pool.ts:427-480 | A report from a worker still in the pool, also one that had timed out, leaves no way to two workers serving one thread if and only if the worker counts as alive already, is retiring or carries no thread, or nobody else serves its thread and the lifecycle mutex is not about to give that thread to another worker |
| `SchedulerReports.SafeRunsKeepTheLease` | src/worker/worker-pool.ts:105-110 | Over every run, whatever workers report late, as long as each late report satisfied that condition when it came, no two workers serve a thread |
| `SchedulerReports.SafeRunsKeepTheCount` | src/worker/worker-pool.ts:175-206 | Over every run in which each late report also came from a worker with as many reservations as holders, every worker in use is reserved exactly as often as somebody holds it |
| `SchedulerReports.FlagsMeanRuns` | src/worker/worker-pool.ts:427-480 | The history flags of a reachable state say exactly whether every report of the run was safe |
| `SchedulerCounts.LateReportKeepsCountIff` | src/worker/worker-pool.ts:427-480 | After a report the counts of all workers in use are exact if and only if the reporting worker has as many reservations as holders, and it does not settle a running turn while a worker that entered the pool before it serves its thread |
| `LateReports.LateReportDuringSwitch` | src/worker/worker-pool.ts:149-161 | One step before the end of that run the report leaves one writer, but the session switch in flight then makes a second one |
| `LateReports.LateReportLosesReservation` | src/worker/worker-pool.ts:189-206 | Earlier in that run the report endangers no thread, but leaves a worker in use with a reservation nobody holds |
| `LateReports.ExitAnnouncesAgain` | src/worker/worker-pool.ts:318-340 | There the exit handler publishes a terminal event for a turn that has ended before |
| `SchedulerTerminals.AnnouncesAgainIff` | src/worker/worker-pool.ts:318-340 | In a running service the terminal event that the exit handler or a settled run publishes ends the turn its worker knows; it is not the first one, and then changes no turn, if and only if that turn is among the ended ones |
| `SchedulerTerminals.StaleArises` | src/service/pi-threads-service.ts:868-880 | A worker comes to know an ended turn only when a terminal event of its own running turn is handled while lookup by the thread does not give that worker; with one writer per thread, when the worker had timed out or stopped |
| `SchedulerTerminals.ReachableIsMarked` | src/worker/worker-pool.ts:469-519 | In every reachable state the turn a worker knows is running on exactly that worker or has ended |
| `Pools.ChoiceExists` | src/worker/worker-pool.ts:225-256 | The selection rule is never stuck: in every pool one of its choices applies |
| `EndToEnd.TurnExchange.constructor` | src/transport/http.ts:209-223 | A turn stream over the daemon's own bus |
| `EndToEnd.TurnExchange.Subscribe` | src/transport/http.ts:214-219 | The bus registers the stream's listener; from then on the stream has heard exactly what the listener was called with |
| `EndToEnd.TurnExchange.Subscribed` | src/protocol/turn-stream.ts:78-88 | The request is issued after the subscription, so that the subscription's origin is no later than the request |
| `EndToEnd.TurnExchange.Admitted` | src/protocol/turn-stream.ts:88-93 | The acceptance of a turn that was named after the request keeps the coupling, whatever was heard before it |
| `EndToEnd.TurnExchange.Publish` | src/service/event-bus.ts:32-63 | Whoever publishes, whatever listeners do meanwhile, the stream hears its listener's calls and the coupling stays |
| `EndToEnd.TurnExchange.CatchUp` | src/protocol/turn-stream.ts:52-66 | Every call of the listener reaches the stream, in order; a stream that ends gives its subscription back |
| `EndToEnd.TurnExchange.Close` | src/transport/http.ts:224-227 | The consumer may close at any time; the subscription is given back |
| `EndToEnd.TurnExchange.NothingIsLost` | src/protocol/turn-stream.ts:35-96 | In every state of bus and stream together: reads are a prefix of acceptance followed by exactly the turn's events of the bus's full history in publication order up to the first terminal; told done means all delivered and that the bus has published an event that completes, fails or aborts the turn; while subscribed and not cut short the stream holds all of it, events before the acceptance reply included |
| `EndToEnd.TurnExchange.EndsWithItsTurn` | src/protocol/turn-stream.ts:62-66 | While the stream is subscribed and not cut short it is open and the bus has published no event that completes, fails or aborts its turn |
| `EndToEnd.TurnExchange.HasHeard` | src/service/event-bus.ts:44-57 | The stream has heard a prefix of what the bus has published of its turn, and all of it as long as it is subscribed |
| `Catalogs.VanishedIsAnswered` | src/session/catalog.ts:60-77 | A baselined thread whose file has vanished is answered from memory: its resolution waits for the listing while its worker's state is refreshed |
| `Catalogs.RecallSince` | src/session/catalog.ts:175-179 | A session that was not remembered then is remembered now exactly if it was cached since and not dropped afterwards |
| `SseSizes.FramesSize` | src/client/sse-reader.ts:38-44 | The frames of a text never have more data than its data lines give |
| `SseWriters.DataIsCut` | src/transport/sse.ts:8-13 | The lines of a frame whose data contains a newline give less data than the frame has |
| `RpcWorkers.PiRpcWorker.SetState` | src/worker/worker-pool.ts:427-470 | Nothing is written by a new state; only a live one opens a given-up worker again |
| `RpcWorkers.WritesAgain` | src/worker/pi-rpc-worker.ts:175-177 | A timed-out worker that is written a live state writes the next command |

## Left out

- Process spawning, signals, version probing, sockets, TLS, WebSocket, HTTP headers and negotiation, CORS, bearer and Origin checks: foreign I/O and policy.
- Heartbeat scheduling, drain time-outs and shutdown grace timers: wall-clock behaviour; heartbeats appear as pieces of the byte stream.
- CLI, rendering, completion, configuration: user interface.
- JSON text itself: a codec parameter with the law that printing is undone by parsing.
- Listing, sorting, pagination, message projection, and the name and date fields of sessions: easy helpers.
- Validation of event filters and the text form of cursors: a cursor is malformed or an epoch with a number.
- threadSteer, threadFollowUp, threadExportHtml and the other reads: they hold a worker like the modelled reads and do nothing else to the scheduler.
- Worker objects of the pool are values in a map, not objects shared by reference; the WeakMap and WeakSets about them are fields of that value.
- Operations waiting for the lifecycle mutex take it in any order in the model, which includes the order of the source.
- Prewarmed workers start in directory 0, which stands for the configured directory.
- A service that is shutting down and a stopped pool are one flag; the service sets its flag just before the pool's.
- The close callback of a buffered stream may throw, but does not call the stream back.
- Errors raised by a request's own parameters before it touches shared state, and the data field of remote errors; a remote error whose code is no text is reported as internal.
- The choice of which event a worker line maps to, beyond those that begin, end or settle a run.
- Late Pi events stamped with a newer turn after an abort reply: they depend on Pi's ordering.
- Concurrent native Pi writers between the baseline check and the write: documented as best effort.
- Paths are absolute names; resolving relative ones is not part of the model.
- SseReaders.ReadSse: the generator's yields are collected; a consumer that stops early sees a prefix of them.
- Reports from workers outside the pool's map: a process that stop gave up waiting for, three seconds after it was told to end, is taken to be silent.
- StopEnds waits for every worker of the pool to be closed; the source gives up on one after three seconds.
- EndToEnd.TurnExchange: what the stream's listener does to the bus (giving the subscription back at the terminal event) is part of the bus's script while the bus calls it, and done once more right after.
