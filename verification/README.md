# StreamForge: verified model

StreamForge accepts events over HTTP, keeps them as rows in PostgreSQL, queues copies of them on three Redis
streams, and has a pool of workers process them with retries. A scheduler recovers events whose worker died, and a
WebSocket hub tells dashboards what happens. This project models that machinery in Dafny and proves what it
guarantees in every run, and, where a guarantee one would hope for does not hold, the run that breaks it and the
condition under which it does hold. `dafny verify dfyconfig.toml` checks everything.

## How the model is built

**The delivery protocol** (`Protocol.dfy`) is a state machine over the two tables, the three streams with their
consumer group, and one program counter per process: submit handlers, workers, retry goroutines and recovery sweeps.
One move is one committed transaction or one stream command. A move may belong to any process; any process may stop
for good between two moves; and every remote call may be answered, run with its answer lost, or not run at all.
A run is any sequence of enabled moves from the empty system, so every theorem quantifies over all interleavings,
crashes and infrastructure errors. `History` records what happened (status writes per event, which copy each handoff
published, what each claim found, announcements, delays); the program never reads it.

**The objects** (`EventRepo`, `RedisQueue`, `Worker`, `EventHandler`, `Scheduler`) are classes with the source's loops
and control flow. They share a `System` object whose script says what all other processes do between any two of an
object's calls, what becomes of each call, and where the process is killed. `System.Valid` says that what really
happened to the stores is a run of the protocol, so each method is proved to be the protocol's steps for its process:
a call left out, swapped or added would leave the process at a program counter the protocol does not give it.

| file | what it holds |
|---|---|
| `Events.dfy` | transition table, `Event`, histories of status writes and what they conserve |
| `EventStore.dfy`, `Streams.dfy` | the store's transactions and `EventRepo`; the streams as one log and `RedisQueue` |
| `Backoff.dfy` | the retry delay |
| `Protocol.dfy`, `ProtocolInvariant.dfy`, `ProtocolSteps.dfy`, `ProtocolTheorems.dfy` | the protocol, its inductive invariant, its theorems |
| `Exclusive.dfy`, `Holders.dfy`, `NoRecovery.dfy` | when an event has at most one holder, exactly |
| `Continuations.dfy`, `Stopped.dfy`, `Stranded.dfy` | which rows never change again, exactly, and how all others can go on |
| `Completion.dfy` | which events can still be completed, exactly |
| `Witnesses.dfy` | concrete runs against stronger claims |
| `Drain.dfy`, `Inversions.dfy` | delivery order, of a backlog and while copies are being published |
| `System.dfy`, `Workers.dfy`, `Intake.dfy`, `Recovery.dfy` | the objects that run the protocol; the sweep's memo |
| `Settlements.dfy` | what becomes of a job once its worker has been told the outcome |
| `Lifecycle.dfy`, `Pools.dfy`, `Shutdown.dfy` | starting and stopping a pool: state machine, objects, and the pool as part of the protocol |
| `Frames.dfy`, `Fanout.dfy`, `Hubs.dfy`, `Dashboard.dfy` | batching, the hub with its clients: state machine and objects; the dashboard |

## What does not hold

- A QUEUED event can be lost. `QueuedIsLostExactlyWhen` says exactly when: every copy has been delivered, no process
  stands before claiming one, and none may publish another; otherwise it can still be claimed. `HowAnEventIsLost` names
  the two ways. In the handoff window: all three handoffs publish before they write the status, and a worker that claims
  in between is refused and acknowledges the copy away (`AHandoffCanLoseItsCopy`). Or by a stranded copy: the worker
  that read it is killed, loses the answer or gets an error before it claims, and reads only ask for new messages
  (`ACopyCanBeStranded`). `HandoffCopiesAreKept` says only that outside the window the copy is not acknowledged.
- An accepted event can stay RECEIVED for good: when the status write after the publication fails, the client gets 202
  all the same, every claim is refused, and no sweep reads RECEIVED rows (`AnAcceptedEventCanStayReceived`). A RECEIVED
  row is stuck exactly when its handler has ended (`ReceivedIsStuckExactlyWhen`).
- An event that has not stopped need not be completable. It is doomed if it is RECEIVED with its handler about to queue
  it when every copy is spent (`AReceivedEventCanBeDoomed`), or PROCESSING without an owner when nobody is left on it but
  a worker about to record its last failure (`AHeldEventCanBeDoomed`) or a sweep about to queue it with a spent copy.
  `CanBeCompletedExactlyWhen` has the exact condition, on the state of the system.
- Dead workers' events are recovered exactly when their rows name an owner, or a sweep that saw one is still at work
  (`ProcessingIsAbandonedExactlyWhen`). A claim by an id that does not parse as a UUID stores no owner, and the
  pool's own ids do not parse (`PoolWorkersAreNeverRecovered`, `StrandedForever`).
- Accurate heartbeats, unique ids and a single sweep do not make processing exclusive: a sweep works from a snapshot
  that may be out of date (`AccurateHeartbeatsAreNotEnough`). Nor is it enough that a worker found absent has taken
  no step since the snapshot: it may be held up and go on later (`SilenceIsNotEnough`). Processing is exclusive
  exactly in the runs in which no sweep resets a PROCESSING row that some process holds
  (`ExclusiveExactlyWhenNeverTaken`). So it is if absent owners have stopped and had taken their last step before the
  snapshot (`FencedRunsAreExclusive`), and with ids that do not parse (`ShippedPoolIsExclusive`).
- Workers do not always receive a backlog in order of priority: one that found the high stream empty before it filled
  goes on to the lower ones first (`AWorkerInMidRoundIsOutOfTurn`). While nothing is published the order is
  kept exactly when no worker is in mid-round out of its turn (`BacklogDrainsAsStableSortExactlyWhen`). Whatever is
  published, a copy is overtaken at most once through each worker that stood below its stream (`InversionsAreBounded`).
- A worker that is STOPPING can be seen BUSY or READY again before it is STOPPED (`StoppingCanBeOverwritten`);
  `WhoOverwritesStopping` says exactly when. WORKER_POOL.md:44-45 has STOPPING followed by STOPPED only.
- From the fifteenth attempt on jitter can reorder delays, exactly when the shortest one is not cut by the two-hour cap
  (`OrderBeyondTheShift`).
- A dashboard line that parses to `null` makes the handler throw and loses the rest of its frame
  (`FramesAreReadUpToNull`). A message is lost exactly when one comes after such a line in the same frame
  (`EveryMessageIsReadExactlyWhen`).
- STATE_MACHINE.md:16-23 lacks PROCESSING to QUEUED, which the code allows for recovery; the model follows the code.

## Model

| member | source | states |
|---|---|---|
| Stopped.StopsExactlyWhen | backend/internal/scheduler/scheduler.go:50-116 | in every run a row is the same in every continuation if and only if it is terminal, RECEIVED with its handler ended, QUEUED with every copy delivered and no claimant or publisher left, or PROCESSING without owner, holder or sweep about to reset it |
| Stopped.StoppedForever | backend/internal/scheduler/scheduler.go:50-116 | a row so stopped is stopped, and unchanged, in every continuation |
| Stopped.CanGoOn | backend/internal/worker/worker.go:188-339 | any other row has a continuation in which it takes a transition |
| Stopped.QueuedIsLostExactlyWhen | backend/internal/queue/redis/queue.go:89-104 | a QUEUED row never changes again if and only if every copy is delivered, nobody stands before a claim and nobody may publish another; otherwise a continuation claims it |
| Stopped.HowAnEventIsLost | backend/internal/worker/worker.go:218-227 | the last handoff's copy of a lost event was claimed before the status write, or it is delivered, pending and never claimed |
| Stopped.ReceivedIsStuckExactlyWhen | backend/internal/api/handler.go:82-92 | a RECEIVED row never changes again if and only if its handler has ended |
| Stopped.ProcessingIsAbandonedExactlyWhen | backend/internal/scheduler/scheduler.go:71-112 | a PROCESSING row nobody holds never changes again if and only if it has no owner and no sweep may still reset it; otherwise a continuation requeues it |
| Stopped.RetryingIsNeverStuck | backend/internal/scheduler/scheduler.go:50-53 | a RETRYING row always has a continuation in which it is QUEUED |
| Completion.CanBeCompletedExactlyWhen | backend/internal/worker/worker.go:188-339 | in every run an event has a continuation in which it is COMPLETED if and only if it is not doomed: FAILED; RECEIVED without handler or with every copy spent; QUEUED with every copy spent; or PROCESSING without owner when no process can turn it towards completion |
| Completion.DoomedForever | backend/internal/scheduler/scheduler.go:50-116 | a doomed event is doomed in every continuation |
| Completion.StoppedEventsAreDoomed | backend/internal/scheduler/scheduler.go:50-116 | a row that never changes again short of COMPLETED is doomed |
| Witnesses.AReceivedEventCanBeDoomed | backend/internal/api/handler.go:82-92 | a run, for any worker name, to a RECEIVED event that has not stopped and cannot be completed |
| Witnesses.AHeldEventCanBeDoomed | backend/internal/worker/worker.go:287-311 | for any id that does not parse and a single attempt, a run to a PROCESSING event that a worker holds, that has not stopped and cannot be completed |
| ProtocolTheorems.HandoffCopiesAreKept | backend/internal/worker/worker.go:313-338 | a QUEUED event's last handoff copy is unclaimed if and only if no claim reached it before the status write, and then it is undelivered or still pending (it may be stranded there) |
| Witnesses.AHandoffCanLoseItsCopy | backend/internal/api/handler.go:82-92 | a run in which the submit handler's only copy is claimed and acknowledged before the row is QUEUED |
| Witnesses.ACopyCanBeStranded | backend/internal/worker/worker.go:202-227 | a run, for any worker name, in which the only copy is read by a worker killed before it claims: nothing was claimed early, and the event is lost |
| Witnesses.AnAcceptedEventCanStayReceived | backend/internal/api/handler.go:82-92 | a run in which the copy is published, the status write fails and the row is RECEIVED in every continuation |
| Holders.ExclusiveExactlyWhenNeverTaken | backend/internal/worker/worker.go:218-249 | in every run: at every moment each held row is PROCESSING and each event has at most one holder, if and only if no sweep ever resets a PROCESSING row that some process holds |
| Holders.FencedRunsAreExclusive | backend/internal/scheduler/scheduler.go:71-112 | that is so when every id parses and is used by one worker once, sweeps do not overlap, and owners found absent have stopped and not moved since the snapshot; then a held row's owner column is its holder's parsed id |
| Holders.ShippedPoolIsExclusive | backend/internal/worker/pool.go:30-34 | it is also so when no id parses, which is the pool's own case, with any number of sweeps |
| Witnesses.AccurateHeartbeatsAreNotEnough | backend/internal/scheduler/scheduler.go:71-112 | for any three distinct UUID workers, a run with accurate heartbeats in which two of them hold one event |
| Witnesses.SilenceIsNotEnough | backend/internal/scheduler/scheduler.go:80-95 | for any two distinct UUID workers, a run whose absent owner has not moved since the snapshot, but moves again, in which both hold one event |
| NoRecovery.HolderCarriesTheRowsAttempt | backend/internal/worker/worker.go:287-311 | as long as no sweep has republished a row, and with no assumption on ids, an event has at most one holder and its carried attempt is the row's |
| ProtocolTheorems.FinalizedOnce | backend/internal/store/postgres/event_repo.go:156-208 | under any zombies, duplicates and recoveries: COMPLETED if and only if recorded, completed at most once, and the PROCESSING-but-recorded branch never reached |
| ProtocolTheorems.AcksAreJustified | backend/internal/worker/worker.go:219-221 | every acknowledged message was claimed, and its event is terminal, or a later copy exists, or its claim found the row not QUEUED |
| ProtocolTheorems.AcksComeAfterTheirReason | backend/internal/queue/redis/queue.go:140-156 | that reason already stood before the acknowledgement was made |
| ProtocolTheorems.FlowBalances | backend/internal/store/postgres/event_repo.go:49-208 | claims equal completions, failures, recoveries and the open claim; queue entries equal claims and the waiting one; failures equal the attempt column |
| ProtocolTheorems.ClaimsAreExclusiveInHistory | backend/internal/store/postgres/event_repo.go:100-154 | every prefix of an event's history has at most one open claim |
| ProtocolTheorems.StatusWritesAreBounded | backend/internal/store/postgres/event_repo.go:266-318 | the number of status writes is exactly 3 per failure, 2 per recovery and the progress in the current attempt, hence at most 3M + 2R |
| ProtocolTheorems.RankIsWhatRemains | backend/internal/store/postgres/event_repo.go:287-310 | the rank on status, attempt and recoveries left is what remains of that bound, and is not negative |
| ProtocolTheorems.RankFalls | backend/internal/event/statemachine.go:12-30 | every move of every run leaves a row alone or lowers its rank by one |
| ProtocolTheorems.StatusHistoryIsAPath | backend/internal/event/statemachine.go:12-39 | the committed statuses of an event are a path of the transition table from RECEIVED, and completed_at is set exactly in terminal rows |
| ProtocolTheorems.TerminalRowsAreFrozen | backend/internal/event/statemachine.go:28-29 | once COMPLETED or FAILED, nothing in the row ever changes |
| ProtocolTheorems.AttemptDiscipline | backend/internal/worker/worker.go:289-311 | messages and jobs refer to existing rows and never carry an attempt ahead of the row's; RETRYING, FAILED and other rows have the attempts the limit gives them |
| ProtocolTheorems.BackoffOverALife | backend/internal/worker/worker.go:310-315 | all delays ever scheduled for an event sum to at most 1.1 base (2^M - 2) and at most M - 1 times two hours |
| ProtocolTheorems.OutcomesAnnouncedOnce | backend/internal/worker/worker.go:259-276 | at most one announced outcome per event, the row's own; processed and failed counters never exceed COMPLETED and FAILED rows |
| ProtocolSteps.NextKeeps | backend/internal/worker/worker.go:188-339 | every move of every process keeps the inductive invariant |
| ProtocolSteps.RunsKeepInv | backend/internal/worker/worker.go:188-339 | the invariant holds after every run |
| Stranded.PoolWorkersAreNeverRecovered | backend/internal/worker/pool.go:30-34 | in any run, an event all of whose claims were by ids that do not parse has no owner in its row and was never recovered from PROCESSING |
| Stranded.StrandedForever | backend/internal/scheduler/scheduler.go:72-75 | in any run, such an event that is PROCESSING and held by nobody never changes again |
| Witnesses.OnlyACompletingUpdateBreaksTheTie | backend/internal/store/postgres/event_repo.go:76-86 | a bare status update keeps COMPLETED tied to its record if and only if it does not ask for COMPLETED |
| Drain.StreamsAreDeliveredInOrder | backend/internal/queue/redis/queue.go:86-104 | in every run exactly the ids below the cursors were handed out, each once, each stream in publish order |
| Drain.BacklogDrainsAsStableSortExactlyWhen | backend/internal/queue/redis/queue.go:76-129 | in every continuation without publications what any number of interleaved workers receive, followed by what is left, is the stable sort of the backlog by priority class, if and only if each worker in mid-round stands at a stream above which all are empty or from which on all are |
| Witnesses.AWorkerInMidRoundIsOutOfTurn | backend/internal/queue/redis/queue.go:86-104 | a run in which a worker at the low stream receives a low-priority copy while an earlier high-priority one waits |
| Inversions.InversionsAreBounded | backend/internal/queue/redis/queue.go:86-117 | in every run, from any moment on and whatever is published: while a copy stays undelivered, the deliveries of copies of lower classes and the workers then in mid-round below its stream are together no more than the workers that were below it at that moment |
| Drain.LargerPriorityFirst | backend/internal/queue/redis/queue.go:84-104 | of two waiting copies with different priorities among 1, 5 and 10, workers in turn are given the one with the larger priority first while nothing is published |
| Drain.StableSortSorts | backend/internal/queue/redis/queue.go:86-88 | that reference order is a permutation ordered by class and, within a class, by publication |
| Trails.FlowConserved | backend/internal/event/statemachine.go:12-30 | what every path through the transition table conserves, and its exact length |
| Trails.ClaimsNeverOverlap | backend/internal/event/statemachine.go:12-30 | every prefix of a path has at most one open claim |
| Backoff.JitterKeepsOrder | backend/internal/worker/backoff.go:18-35 | below the shift limit an earlier attempt's every possible delay is less than a later one's, unless both are the cap |
| Backoff.OrderBeyondTheShift | backend/internal/worker/backoff.go:20-22 | beyond the shift limit delays keep their order under every draw if and only if the cap cuts even the shortest |
| Backoff.DelayRange | backend/internal/worker/backoff.go:23-35 | an uncapped delay is within 10% of base 2^attempt up to truncation |
| Backoff.DelayFollowsTheDraw | backend/internal/worker/backoff.go:26-30 | a larger draw never shortens the delay; one half leaves the doubled base as it is, smaller draws do not lengthen it and larger ones do not shorten it |
| Backoff.LargeDrawsLengthen | backend/internal/worker/backoff.go:26-30 | a draw above one half that moves an uncapped delay by a unit lengthens it |
| Backoff.DelaysStopGrowing | backend/internal/worker/backoff.go:18-35 | no delay exceeds two hours, and from the fifteenth attempt on they are those of the fifteenth |
| Backoff.DelayFitsBudget | backend/internal/worker/backoff.go:10-36 | the k-th delay fits in what the k-th step adds to the budget, even for a lagging attempt |
| Recovery.MemoAgreesWithDirectLookup | backend/internal/scheduler/scheduler.go:69-95 | with stable heartbeats a row is republished if and only if it is RETRYING or its owner has no key and this row's own lookup did not fail |
| Recovery.AskedAgainOnlyAfterErrors | backend/internal/scheduler/scheduler.go:78-88 | an owner is looked up again only if every earlier lookup failed |
| Recovery.Scheduler.RecoverEvents | backend/internal/scheduler/scheduler.go:55-116 | every row of the snapshot is treated as its owner's answer says; every copy counted was published by this sweep; a row is moved only after its copy |
| Recovery.Scheduler.Recover | backend/internal/scheduler/scheduler.go:71-115 | one row: lookup exactly when unknown, publish exactly when RETRYING or dead, reset only after publishing |
| Recovery.Scheduler.Reset | backend/internal/scheduler/scheduler.go:108-112 | a reset row is QUEUED without owner and its handoff copy is the one just published |
| Intake.EventHandler.HandleCreateEvent | backend/internal/api/handler.go:50-125 | 400 if and only if malformed, unsound or of a priority other than 1, 5 and 10, and then nothing was touched; 500 only if the id is taken or a call was not confirmed; 202 only with a new unowned row of the priority asked for and a copy on its stream, the row RECEIVED if the status write was not carried out and QUEUED otherwise; a confirmed write makes that copy the handoff's |
| Intake.LeftReceived | backend/internal/api/handler.go:82-92 | an accepted row left RECEIVED when its handler ended stays so in every continuation |
| Intake.HandlersHaveRows | backend/internal/api/handler.go:56-57 | an id that names no row belongs to no handler |
| Workers.Worker.Consume | backend/internal/queue/redis/queue.go:76-129 | rounds over high, normal, low until a job, an error or shutdown; returns for every script |
| Workers.Worker.Probe | backend/internal/queue/redis/queue.go:89-117 | one read of one stream and where each reply leaves the worker; a job is a pending copy of its event, of the stream's priority |
| Workers.Worker.Assign | backend/internal/worker/worker.go:218-227 | with an answer delivered the claim succeeds exactly on a QUEUED row, which becomes PROCESSING under this worker's parsed id with the time of the call, and is refused on any other |
| Workers.Worker.Finalize | backend/internal/worker/worker.go:249-263 | with an answer delivered: recorded exactly on a PROCESSING row, with stamps and marker; a repetition exactly on a COMPLETED one; otherwise the row had moved on |
| Workers.Worker.Record | backend/internal/worker/worker.go:288-319 | with an answer delivered the failure is recorded exactly on a PROCESSING row, as RETRYING below the limit and FAILED at it; RETRYING starts the goroutine of that failure with its delay, FAILED owes the reports |
| Workers.Worker.HandleFailure | backend/internal/worker/worker.go:287-339 | a last failure is counted and announced exactly once and its message acknowledged; a delay is returned exactly as scheduled |
| Workers.Worker.HandleJob | backend/internal/worker/worker.go:215-284 | unless a call was not confirmed the worker knows how the job ended: a recorded result or last failure is then counted and announced exactly once, and the message of a job discarded, repeated, recorded or given up is not pending, unless a call was refused |
| Workers.Worker.RecordResult | backend/internal/worker/worker.go:249-277 | after a successful processor call: reported once and acknowledged if recorded, acknowledged if a repetition, neither if the row had moved on |
| Settlements.ToldJobsAreSettled | backend/internal/worker/worker.go:218-277 | in every run: a worker that was told of a refused claim, a recorded or repeated result or a last failure, and not killed since, has counted and announced the result or failure when it polls again, and acknowledged the message unless that was refused; a success is never counted before that |
| Settlements.AnnouncedAreCounted | backend/internal/worker/worker.go:259-303 | in every run no outcome is announced that has not been counted |
| Workers.Worker.RunJobLoop | backend/internal/worker/worker.go:188-285 | under every script the loop ends, and only with its context cancelled or killed |
| Workers.Worker.RunRetry | backend/internal/worker/worker.go:316-338 | requeued only with a new copy published, the original message no longer pending and the row QUEUED with that copy as handoff |
| Runtime.StepLeavesOthers | backend/internal/worker/worker.go:313-315 | a move changes no other process's program counter; in particular a retry goroutine never replaces a live one |
| Runtime.System.Wait | backend/internal/worker/worker.go:188-339 | whatever others do, the process stands where it stood, rows are not removed and logs only grow |
| EventStore.EventRepo.UpdateStatus | backend/internal/store/postgres/event_repo.go:49-98 | when each error is answered, in terms of the row alone, and the new row with its stamps; an illegal transition is refused even when the store is not reached |
| EventStore.EventRepo.AssignEvent | backend/internal/store/postgres/event_repo.go:100-154 | the same, with the owner column |
| EventStore.EventRepo.FinalizeEvent | backend/internal/store/postgres/event_repo.go:156-208 | the same: already finalized exactly for a COMPLETED row, or a PROCESSING one that has a record; on success row, stamps and record are written together |
| EventStore.EventRepo.RecordFailure | backend/internal/store/postgres/event_repo.go:266-318 | the same: the attempt goes up by one, to RETRYING below the limit and to FAILED with its stamp otherwise |
| EventStore.EventRepo.GetStaleEvents | backend/internal/store/postgres/event_repo.go:238-264 | exactly the rows of the status updated before the cutoff, each once, oldest update first |
| Streams.RedisQueue.Publish | backend/internal/queue/redis/queue.go:51-74 | priority 10 is added to the high stream, 5 to the normal one and any other to the low one, the other two unchanged; the three behave as one log of additions |
| Streams.RedisQueue.ReadGroup | backend/internal/queue/redis/queue.go:91-117 | the first entry past the group's cursor is delivered and becomes pending, also when the answer is lost |
| Streams.RedisQueue.FirstNew | backend/internal/queue/redis/queue.go:91-99 | the scan finds the entry the group's cursor designates |
| Streams.NextIsFirst | backend/internal/queue/redis/queue.go:91-99 | a stream's first entry at or past the cursor is the next of the log with its class |
| Events.Event.TransitionTo | backend/internal/event/statemachine.go:43-57 | succeeds exactly on a valid transition and otherwise changes nothing |
| Lifecycle.StoppedForGood | backend/internal/worker/pool.go:62-82 | after the stopping Pool.Stop returned, every worker is STOPPED with no goroutine alive, in every continuation |
| Shutdown.NothingIsLeftBehind | backend/internal/worker/pool.go:62-82 | with the pool run as part of the protocol: once the stopping Pool.Stop has returned, every worker process of the pool and every retry they started is gone, then and in every continuation |
| Shutdown.HoldersAreWaitedFor | backend/internal/worker/worker.go:154-156 | a worker that holds an event has its loop in processing and its wait group above zero, so Stop waits for it |
| Shutdown.RunsStayTied | backend/internal/worker/worker.go:188-339 | in every run of both machines each loop position fits its process's program counter, and each worker's number of retries is that of its live retry processes |
| Shutdown.StoppingGoesOn | backend/internal/worker/worker.go:141-162 | a cancelled worker that is being stopped always has a step in the two machines together |
| Shutdown.StartedRetriesAreKnown | backend/internal/worker/worker.go:313-315 | every retry process that a worker of the pool starts is counted as that worker's |
| Lifecycle.CounterCountsGoroutines | backend/internal/worker/worker.go:112-162 | the wait counter is the number of live goroutines; at most one job is taken after cancellation |
| Lifecycle.AddsAreSafe | backend/internal/worker/worker.go:313-315 | the counter is raised only before Stop or while positive |
| Lifecycle.StartNeverFails | backend/internal/worker/pool.go:52-56 | Pool.Start always finds the next worker STOPPED |
| Lifecycle.EveryStepIsProgress | backend/internal/worker/worker.go:192-212 | every step of a cancelled worker leaves it fewer steps to make |
| Lifecycle.SomeStepIsPossible | backend/internal/worker/worker.go:154-156 | a cancelled worker that is being stopped can always make one |
| Lifecycle.WhoOverwritesStopping | backend/internal/worker/worker.go:281-283 | STOPPING is overwritten exactly by a job loop about to set BUSY or READY |
| Lifecycle.StoppingIsSeen | backend/internal/worker/worker.go:280-283 | a job loop that reads STOPPING at the end of a job goes on without setting the status, and any other status makes it set READY |
| Lifecycle.WhoSetsStatus | backend/internal/worker/worker.go:102-160 | which position of which goroutine sets the status, to what, and that no other does |
| Lifecycle.StoppingCanBeOverwritten | backend/internal/worker/worker.go:215-225 | a run from STOPPING to BUSY to READY |
| Pools.Pool.Stop | backend/internal/worker/pool.go:62-82 | returns under every scheduling; the first call after a start leaves every worker at rest, any other changes nothing |
| Pools.Pool.Start | backend/internal/worker/pool.go:43-58 | succeeds exactly once, and never after a stop; afterwards every worker has been started |
| Pools.Pool.constructor | backend/internal/worker/pool.go:25-40 | the count asked for, or four if it is not positive |
| Pools.Pool.RunJobLoop | backend/internal/worker/worker.go:188-285 | the job loop, interleaved with every other goroutine, ends exactly when its context is cancelled, and neither its end nor the top of a round leaves the worker BUSY |
| Pools.Pool.Consume | backend/internal/queue/redis/queue.go:76-129 | rounds until a job, an error or a context seen cancelled |
| Pools.Pool.HandleJob | backend/internal/worker/worker.go:215-284 | one job returns to the top of the loop with the worker READY or STOPPING, and STOPPING if that is what a claimed job's worker read at its end |
| Pools.Pool.Process | backend/internal/worker/worker.go:243-283 | a worker that is STOPPING when a job's processing begins, or when its status is read at the end, is STOPPING afterwards |
| Pools.Pool.StopWorker | backend/internal/worker/worker.go:141-162 | Stop returns under every scheduling of the other goroutines, and then the worker is at rest |
| Fanout.StreamFidelity | backend/internal/websocket/hub.go:62-75 | received, in flight, in the writer's hands and buffered lines together are the lines of a contiguous run of broadcasts from registration to the last one offered |
| Fanout.ChannelSafety | backend/internal/websocket/hub.go:35-78 | no channel is closed twice or sent to when closed, holds more than 256 messages, or is open without its client registered; shutdown closes all |
| Fanout.DroppedWhenFull | backend/internal/websocket/hub.go:65-73 | a client is dropped exactly when its channel is full, and misses exactly that broadcast |
| Fanout.ClosedForGood | backend/internal/websocket/hub.go:54-61 | after closing, a client's run of broadcasts never changes |
| Fanout.RunsAreFixed | backend/internal/websocket/hub.go:49-53 | it starts at registration and only grows until closing |
| Fanout.ReceivedIsAPrefix | backend/internal/websocket/client.go:68-93 | a peer is never ahead of the broadcasts since registration and never out of order |
| Frames.BatchingIsInvisible | backend/internal/websocket/client.go:80-89 | a batched frame reads as its messages one by one |
| Frames.CleanIsOneLine | frontend/src/hooks/useWebSocket.ts:53-56 | exactly the non-empty, newline-free messages without surrounding white space are read back as sent |
| Frames.WhiteSpaceIs | frontend/src/hooks/useWebSocket.ts:54-56 | the characters `trim` removes |
| Hubs.Hub.Serve | backend/internal/websocket/hub.go:35-78 | exactly the broadcasts requested before a shutdown are made, in order; a client whose registration is served starts at the broadcasts then made and is served until it unregisters, the hub shuts down, or it is dropped, which takes more than 256 broadcasts since; a leaving client whose request is served has left; shutdown closes every registered channel |
| Hubs.Hub.Handle | backend/internal/websocket/hub.go:49-76 | what one request does to each client |
| Hubs.Hub.Broadcast | backend/internal/websocket/hub.go:62-76 | every client is offered the message once, while pumps run; those still registered have been offered everything since, and none is dropped before 257 broadcasts since it registered |
| Hubs.Hub.Offer | backend/internal/websocket/hub.go:65-74 | appended, or dropped and closed if the channel was full |
| Hubs.Hub.WritePump | backend/internal/websocket/client.go:61-102 | a queued message is written unless a write fails; a failed write ends the pump; and once the channel is closed it ends in this round if the channel is empty and in the next at the latest |
| Dashboards.Dashboard.HandleMessage | frontend/src/hooks/useWebSocket.ts:51-140 | the loop over segments handles exactly the frame's lines, up to one that throws |
| Dashboards.Dashboard.Dispatch | frontend/src/hooks/useWebSocket.ts:66-138 | what each kind of message does to the counters, the active workers and the feed, status by status |
| Dashboards.FramingIsInvisible | frontend/src/hooks/useWebSocket.ts:52-64 | whatever the batching, the dashboard ends as the lines one by one would leave it, if none throws |
| Dashboards.FramesAreReadUpToNull | frontend/src/hooks/useWebSocket.ts:52-66 | whatever the frames, the dashboard is where applying the messages before the first null of each frame puts it |
| Dashboards.EveryMessageIsReadExactlyWhen | frontend/src/hooks/useWebSocket.ts:58-66 | no message of any frames is lost if and only if in no frame one comes after a line that parses to null |
| Dashboards.CountersAreTotals | frontend/src/hooks/useWebSocket.ts:95-110 | the counters are the numbers of completed and failed messages |
| Dashboards.ActiveIsTheLastWord | frontend/src/hooks/useWebSocket.ts:122-136 | a worker is shown active exactly if the last message about it says so |
| Dashboards.FeedIsNewestFirst | frontend/src/hooks/useWebSocket.ts:68-79 | the feed is the newest hundred entries, newest first |
| Dashboards.FeedStaysOk | frontend/src/hooks/useWebSocket.ts:70-78 | feed ids fall without gaps, so no two are equal |
| EndToEnd.DashboardShowsTheBroadcasts | frontend/src/hooks/useWebSocket.ts:51-140 | in every run a dashboard shows what applying the first broadcasts since its registration one by one would show |

## Left out

- SQL, pgx, go-redis and gorilla calls: only their effects are modelled. A transaction takes effect at once or not at
  all, and the consumer group exists before the first publication, since it is created at the end of the stream.
- Message ids are positions in one log of all additions; entry ids, consumer names and stream trimming are not modelled.
- JSON: a message is a record of event, priority and attempt, and parsing in the dashboard is a parameter.
- Event status is one of the six constants; rows written by hand with other values are not considered.
- Integers are unbounded and the jitter is a real in [0, 1), so the float rounding and int64 overflow of the delay
  computation are not captured; base delays are non-negative.
- Time: staleness, heartbeat expiry, timers and the context of a request are choices of the environment. No statement
  is about when something happens.
- Runtime.System.Wait: the script decides who moves; nothing forces a process to be scheduled, so only safety and
  termination of the code itself are stated.
- The worker's status, context and wait group are in `Lifecycle` and `Pools`, its work on events in `Protocol` and
  `Workers`. `Shutdown` ties the two machines; the methods of `Pools` and those of `Workers` are each tied to their own.
- Shutdown.NothingIsLeftBehind: the process the pool is part of does not crash meanwhile; other processes may.
- Pools.Pool.Stop: it is stated for one caller at a time besides the goroutines; concurrent callers are moves of
  `Lifecycle`, where their later calls change nothing.
- Hubs.Hub.Serve: the clients are made in advance and numbered, instead of being allocated as connections arrive.
  A client registers once, as ServeWs does; registering one again after it was closed is not modelled.
- A peer that closes its connection is a read or write failure; WebSocket deadlines and ping frames only as failures.
- Dashboards.FeedStaysOk: each state updater is taken to run once, as in a production build. In development the page is
  rendered in strict mode (frontend/src/main.tsx:5-9), which runs updaters twice; ids then still fall and differ, but with gaps.
- The dashboard's timestamps, throughput, reconnection and rendering.
- The two calls of one sweep are two runs of `RecoverEvents`; their ages only choose the cutoff.
- HTTP routing, list and get handlers, configuration, metrics other than the two outcome counters, simulator,
  processors, and the worker and execution repositories, which would add only simple lookups.
- Documented behaviour the code does not have: execution rows per attempt, a QUEUED status in the create response,
  assignment by the scheduler.
