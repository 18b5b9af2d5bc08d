# DistroSync, modelled and proved in Dafny

DistroSync is a task broker: producers submit tasks to named queues, workers pull them and answer
ACK or NACK, silent workers are evicted and their tasks requeued, tasks that fail too often go to a
dead letter queue, a SQLite write-ahead store makes the broker restartable, and a token bucket per
queue throttles producers. This project models that behaviour and proves what the system promises.

`dafny verify dfyconfig.toml` checks everything.

## How the model is laid out

**Task lifecycle.** `Tasks` and `Queues` hold the state of the queue manager and the dead letter queue
as values, one function per operation. `QueueManagement` holds the mutable objects (tasks, dead letter
queue, queue manager); each method is proved to make exactly the change its function describes.
`Lifecycle` lets the critical sections of all operations interleave freely: `negative_acknowledge` and
`retry` release one lock before taking the next, so a task can be in the hands of a suspended
coroutine in between. `Conservation` and `Drain` reason over those interleavings.

**Persistence and crashes.** `WalStore` is the two committed tables. `Handlers` is one function per
command over queue manager, worker registry and store, with the list of commits it makes; `BrokerServer`
holds the server and registry objects that carry the commands out. `Runs` is the machine of
whole broker lives: commands, crashes at any commit, and recoveries that may themselves be cut short,
together with a history of what was issued, answered, replayed, purged and lost. `Placement`,
`Agreement`, `Durability` and `Recovery` prove what each step keeps; `CrashSafety`, `Ledger`, `Dispatch`
(which task a CONSUME hands out), `Records` (what the stored columns mean), `Answers` (what the replies tell),
`Tracking` and `Custody` (who tracks a task, and whom eviction takes it from) and `EvictionTiming` state the
results for every run, whatever the wall clock does. `QueueShape` and
`DeliveryOrder` add what holds when creation times increase. `Witnesses` holds concrete runs in which a
hoped-for property fails.

**Admission.** `Rates` is the adaptive fill rate, `Buckets` the token bucket under arbitrary traces of
requests and monitoring calls, `LoadShedder` the buckets of all queues and their objects, `Admission` the
whole PRODUCE command, `Producer` the backoff and the retry loop. Times, rates and token counts are `real`.

**Wire and metrics.** `Framing` is the length-prefixed protocol and the broker's connection loop,
`WorkerConnection` the lock protocol on a worker's shared connection, `Metrics` the throughput window
and the latency percentiles.

Conventions: task and worker ids are numbers standing for UUIDs, fresh when issued; a payload is its
JSON text; queue names are strings, with `"*"` for the wildcard and `""` for a missing name; clock
readings, random draws, the broker's replies and the order in which a set is iterated are inputs.

## What holds and what does not

- Every task ever enqueued is in exactly one place at every moment of every interleaving.
- No issued task disappears, across any number of crashes and interrupted recoveries, except in one
  case: a crash between the two commits of DLQ_REPLAY. The number of lost tasks equals the number of
  such crashes (`CrashSafety.LostExactlyWhenTorn`), and `Witnesses.ReplayTorn` shows one.
- A dead letter keeps its payload exactly when fewer than 100 tasks were in the in-memory dead letter
  queue, or the payload was `{}` anyway (`CrashSafety.DeadLetterPayload`, `Witnesses.PayloadForgotten`).
- Every in-flight task stays tracked by its worker exactly as long as only registered workers are
  handed tasks and no worker re-registers while holding one (`Tracking.CarefulExactly`). Otherwise the task
  can go adrift (`Witnesses.UnregisteredConsumer`, `Witnesses.RegisteredTwice`), and then no eviction pass
  returns it until somebody answers it or the broker restarts (`Tracking.AdriftStays`).
- An eviction pass takes tasks only from the silent workers that hold them, in every run in which each accepted
  answer comes from the task's own worker (`Custody.TakenOnlyFromTheSilent`). The handlers do not check that, and
  `Custody.CleanExactly` gives the exact condition: an answer must leave nobody else tracking the task. In
  `Witnesses.TakenFromTheLiving` a stranger answers, and a later pass takes the task from a live worker.
- CONSUME of a named queue hands out the first task of that queue or nothing, in every run; the wildcard serves the
  first busy queue in order of first mention and comes back empty only when all queues are empty (`Dispatch`).
- First deliveries happen in creation order, and queues keep attempted tasks in front, in every run whose
  creation times increase (`DeliveryOrder`). Creation times are wall clock readings, so nothing else in the
  project assumes that they do.
- Monitoring calls change no admission decision while the load signal is constant. When it moves they can:
  `Buckets.LooksChangeAnswers` shows a request lost and one won, and `Buckets.LookFlipsAnswer` says exactly
  when a look changes the next answer.
- A produce call that raises may have submitted its task: the connection can break after the broker took it
  (`Producer.RaisedButTaken`, `Witnesses.TakenUnanswered`). It never submits more than one.
- The comments in `broker/load_shedder.py` put the floor of the depth factor at 10 times the threshold.
  The code reaches it at 10.5 times; `Rates.DepthFloorAt` follows the code.
- A worker call reads its own response exactly when no earlier call on the connection was cancelled
  between its write and its read. The worker closes the connection after a cancellation, which is enough.

## Model

| member | source | states |
|---|---|---|
| `QueueManagement.QueueManager.EnsureQueue` | broker/queue_manager.py:150-159 | a missing queue is created empty and remembered last in the name order; an existing one is untouched |
| `QueueManagement.QueueManager.Enqueue` | broker/queue_manager.py:182-186 | the new task object is pending at the tail of its queue, nothing else moves, and the enqueue counter rises; with the stored attempts it is also the recovery path |
| `QueueManagement.QueueManager.Dequeue` | broker/queue_manager.py:253-273 | the head of the named queue, or of the first non-empty queue for the wildcard, becomes in flight with one more attempt and the worker's name; an empty queue changes only the name table |
| `Dispatch.NamedQueueServed` | broker/queue_manager.py:253-273 | a CONSUME of a named queue hands out a task exactly when that queue has one, and then the first one, which belongs to that queue |
| `Dispatch.NamedQueueTaken` | broker/queue_manager.py:253-273 | it takes that one task off the front of the named queue and leaves every other queue as it was |
| `Dispatch.WildcardServesFirst` | broker/queue_manager.py:253-273 | the wildcard hands out the first task of the first busy queue: every queue earlier in name order is empty |
| `Dispatch.ConsumersGetWhatTheyAskFor` | broker/queue_manager.py:253-273 | over every run, a worker that names a queue gets the first waiting task that was produced for it, or nothing exactly when nothing waits there |
| `Dispatch.WildcardMissesNothing` | broker/queue_manager.py:253-273 | over every run, the wildcard comes back empty exactly when every queue is empty |
| `Dispatch.NamesFollow` | broker/queue_manager.py:150-159 | a command appends the queue it is the first to mention to the name order, and changes the order in no other way |
| `Dispatch.OrderOfFirstMention` | broker/queue_manager.py:150-159 | after any list of commands the name order is the order in which they first mentioned the queues |
| `QueueManagement.QueueManager.Acknowledge` | broker/queue_manager.py:299-307 | an in-flight task becomes completed whoever asks; any other id is refused and nothing changes |
| `QueueManagement.QueueManager.NackTake` | broker/queue_manager.py:341-353 | first section of a NACK: the task leaves in-flight into the coroutine's hands, bound for the dead letter queue exactly when its attempts reach the limit |
| `QueueManagement.QueueManager.NegativeAcknowledge` | broker/queue_manager.py:341-385 | both sections together, and which of the two answers is given |
| `QueueManagement.QueueManager.Release` | broker/queue_manager.py:355-373 | second section: the held task lands in the dead letter queue or at the head of its own queue |
| `QueueManagement.QueueManager.Requeue` | broker/queue_manager.py:399-407 | a task is put back pending, without a worker, at the head or the tail of its queue as asked |
| `QueueManagement.QueueManager.RequeueById` | broker/queue_manager.py:435-446 | an in-flight task returns to the head of its queue whatever its attempts; other ids are refused |
| `QueueManagement.QueueManager.RetryDead` | broker/dead_letter.py:154-167 | a dead letter is removed, reset to zero attempts and queued at the tail; an unknown id changes nothing |
| `Placement.RetryStartsAfresh` | broker/dead_letter.py:154-167 | a retried dead letter leaves the dead letters, whose order is otherwise kept, and waits at the back of its own queue with no attempt and no worker; every other task and the other containers are as they were |
| `Placement.RetryLeavesOthers` | broker/dead_letter.py:154-167 | a retry touches no queue but the task's own |
| `QueueManagement.DeadLetterQueue.Add` | broker/dead_letter.py:78-82 | the task is marked dead-lettered and counted as received; it goes last unless its id is already there |
| `QueueManagement.DeadLetterQueue.Purge` | broker/dead_letter.py:184-187 | the queue is emptied and its length added to the purge counter and returned |
| `Lifecycle.ExactlyOnePlace` | broker/queue_manager.py:237-446 | over every interleaving of critical sections each enqueued task occupies exactly one position: its own queue, in flight, completed, dead letter queue, a coroutine's hands, or discarded; its status field names that place |
| `Lifecycle.StepKeepsInv` | broker/dead_letter.py:68-191 | every single critical section keeps the count of places at one and the status in agreement |
| `Lifecycle.CompletedIsFinal` | broker/queue_manager.py:299-307 | once acknowledged a task stays completed and no later section hands it out |
| `Conservation.CountersBalance` | broker/queue_manager.py:185-352 | over every interleaving: enqueued = pending + in flight + completed + dead + held + discarded; dequeued = acked + nacked + in flight + reassigned; received = dead + retried + removed + purged + being retried; dead-lettered = received + on the way |
| `Ledger.ComponentsBalance` | broker/worker_registry.py:297-302 | after every command of every run, restarts included, the counters kept since the last start balance across queue manager, dead letter queue and registry: enqueued = pending + in flight + completed + dead; dequeued = acked + nacked + in flight + the tasks the registry counted as reassigned |
| `Drain.FailIsTwoSections` | broker/queue_manager.py:312-385 | the one-step NACK used for draining is the two critical sections run back to back |
| `Drain.DeliveriesBounded` | broker/queue_manager.py:253-373 | with no new tasks, evictions or replays, any schedule makes at most the sum over live tasks of max(1, limit - attempts) deliveries |
| `Drain.ProgressPossible` | broker/queue_manager.py:253-310 | while a live task remains, some delivery or answer still has an effect |
| `Drain.DrainCompletes` | broker/queue_manager.py:253-373 | when nothing more can be done every queue is empty, nothing is in flight, and every task is completed or dead |
| `WalStore.WALStore.Save` | persistence/wal_store.py:169-196 | the row for the task is inserted or replaced, the rest of both tables unchanged |
| `WalStore.WALStore.Update` | persistence/wal_store.py:198-242 | only the given columns of one existing row change; a missing row is reported and nothing changes |
| `WalStore.WALStore.MoveToDlq` | persistence/wal_store.py:308-345 | one commit removes the task row and writes the dead letter row |
| `WalStore.WALStore.ReplayDlq` | persistence/wal_store.py:406-444 | the dead letter row is deleted and returned; an unknown id changes nothing |
| `WalStore.WALStore.Purge` | persistence/wal_store.py:446-469 | exactly the dead letter rows of the named queue, or all rows for a missing or empty name, are deleted; the count is how many rows the table lost, and the survivors and the task table are unchanged |
| `WalStore.PurgeExactly` | persistence/wal_store.py:446-469 | on the two tables: a dead letter survives exactly if a queue was named and it is of another queue, survivors and tasks are unchanged, and the number of purged rows is the difference in size |
| `WalStore.WALStore.LoadPendingTasks` | persistence/wal_store.py:264-289 | exactly the pending and in-flight rows, each once, in order of creation time |
| `Handlers.CommittedBeforeAnswer` | broker/server.py:235-595 | the last of the commits a command makes, each written out from the source, is the store the command leaves, and a command that commits nothing leaves the store alone |
| `BrokerServer.WorkerRegistry.Join` | broker/worker_registry.py:147-158 | registering records the time and forgets what the worker was tracking |
| `BrokerServer.WorkerRegistry.RecordHeartbeat` | broker/worker_registry.py:197-204 | a known worker's last heartbeat moves; an unknown worker is refused |
| `BrokerServer.WorkerRegistry.AssignTask` | broker/worker_registry.py:223-227 | the task is tracked for a known worker and silently ignored for an unknown one |
| `BrokerServer.WorkerRegistry.CompleteTask` | broker/worker_registry.py:244-255 | the task is no longer tracked for that worker; other workers keep theirs |
| `Custody.CompleteUnties` | broker/worker_registry.py:244-255 | after an answer by a worker, exactly that pair of worker and task is no longer tracked and no heartbeat has moved |
| `Custody.AssignTies` | broker/worker_registry.py:223-227 | an assignment adds exactly the pair of worker and task, and only for a registered worker |
| `Custody.HeartbeatMoves` | broker/worker_registry.py:197-204 | a heartbeat moves the clock of its own registered worker only, changes no tracking and registers nobody |
| `Custody.RegisterStartsEmpty` | broker/worker_registry.py:147-158 | a registering worker was heard from now and tracks nothing; nobody else is affected |
| `Custody.PassDrops` | broker/worker_registry.py:274-302 | a pass drops exactly the workers not heard from for more than 6 seconds with what they tracked, and the eviction counter grows by how many workers the registry lost |
| `BrokerServer.WorkerRegistry.EvictDeadWorkers` | broker/worker_registry.py:274-302 | exactly the workers silent for more than the timeout are removed, exactly the tasks they tracked are requeued in some order, and the counters grow by the workers and by the requeues that succeeded |
| `Custody.PassReturns` | broker/worker_registry.py:274-302 | a pass leaves a task in flight if and only if every worker tracking it was heard from in the last 6 seconds |
| `Custody.ReturnedGoFirst` | broker/worker_registry.py:286-302 | a pass puts the returned tasks of a queue in front of it, each in-flight one of a dead worker and no other, and keeps the order of what was waiting |
| `BrokerServer.Server.HandleProduce` | broker/server.py:235-270 | missing fields and refused requests change nothing and commit nothing; an admitted one is queued, saved in one commit and answered with its id |
| `Admission.ServeProduce` | broker/server.py:238-270 | the load shedder is asked only about a complete request, under the queue's own depth; one token is spent exactly when the task is queued, saved and answered ok, and a refusal carries the hint and leaves the broker untouched |
| `Admission.DepthCountsWaiting` | broker/queue_manager.py:454-456 | the depth signal of a queue is the number of its tasks that are pending |
| `BrokerServer.Server.HandleConsume` | broker/server.py:282-309 | missing fields change nothing; otherwise the delivery is tracked and its row written in one commit before the task is handed over with its attempt number |
| `BrokerServer.Server.HandleAck` | broker/server.py:356-377 | accepted exactly for an in-flight task, whose row becomes completed in one commit and which is no longer tracked; a missing or other id changes nothing |
| `BrokerServer.Server.HandleNack` | broker/server.py:394-446 | a failed task is requeued with its row pending, or moved to both dead letter queues with the payload found among the first 100 entries, in one commit; a missing or other id changes nothing |
| `BrokerServer.Server.HandleReplay` | broker/server.py:511-558 | the dead letter row is dropped in a first commit and a new task with a new id saved in a second, in that order; a missing or unknown id changes nothing |
| `BrokerServer.Server.HandlePurge` | broker/server.py:570-595 | with a store, exactly the rows of the named queue, or all rows for a missing or empty name, are deleted, and the answer is how many rows the table lost; tasks and memory are untouched |
| `BrokerServer.Server.Recover` | broker/server.py:749-769 | the recovery loop rebuilds memory from the live rows, oldest first, and resets their rows to pending with one commit a row, in that order |
| `BrokerServer.Server.EvictionPass` | broker/worker_registry.py:304-325 | one pass of the eviction loop touches memory only and is one tick of the run machine |
| `Runs.CrashLeavesLastCommit` | broker/server.py:235-595 | wherever a command is cut off, what survives is the store after the last commit made |
| `Runs.RecoveryLeavesLastCommit` | broker/server.py:749-769 | a recovery cut short leaves the store after the last row it reached |
| `Placement.StatusIsPlace` | broker/queue_manager.py:54-76 | at handler boundaries a task's status field alone tells where the task is |
| `Durability.ServeKeeps` | broker/server.py:219-595 | every command keeps the whole invariant of store, memory and retry budget, whatever its creation time |
| `CrashSafety.NoTaskLost` | broker/server.py:244-270 | in every run with crashes and interrupted recoveries each issued task has exactly one fate: at work, completed, dead, replaced by its replay, purged, or lost to a torn replay |
| `CrashSafety.LostExactlyWhenTorn` | broker/server.py:511-558 | the tasks lost over a run are as many as the crashes between the two commits of a replay, and none without one |
| `CrashSafety.MemoryMatchesStore` | broker/server.py:290-435 | whenever the broker is up, the live rows are exactly the queued and in-flight tasks and agree with them on queue, payload and attempts |
| `Records.StoredRecords` | broker/server.py:290-435 | over every run, restarts included: the stored worker is the last one the task was handed to, and so is the one in memory while it is in flight; a completed task's attempts are its requeues plus one, and so are a dead letter's, which reached the limit |
| `Answers.ConsumeAnswer` | broker/server.py:282-309 | over every run, the answer to a CONSUME of a named queue is its first waiting task with the payload it was produced with and one more than the number of its requeues so far, or nothing when the queue is empty |
| `Answers.NackAnswer` | broker/server.py:394-446 | over every run, the answer to a NACK says dead-lettered exactly when the store then has the task as a dead letter and no longer at work, with the number of times it was handed out; a task not in flight draws an error and nothing changes |
| `Answers.AckAnswer` | broker/server.py:356-377 | over every run, an accepted ACK completes a row that was not completed before; a refused one changes nothing |
| `CrashSafety.NoRedeliveryAfterAck` | broker/server.py:356-377 | after an ACK answered ok no later step of any run, restarts included, hands the task out |
| `CrashSafety.DoneIsFinal` | persistence/wal_store.py:277-281 | a completed row stays completed through any continuation and is never handed out |
| `DeliveryOrder.QueuesKeepShape` | broker/queue_manager.py:182-446 | with increasing creation times, every queue is always attempted tasks first, then never-attempted tasks in creation order |
| `DeliveryOrder.DeliveredAreOlder` | broker/queue_manager.py:268-446 | with increasing creation times, every task of a queue ever delivered, whatever became of it, is older than every one never delivered, and the latter are exactly the live rows without an attempt |
| `CrashSafety.RetryBudget` | broker/queue_manager.py:341-373 | a live task was NACK-requeued fewer than max(1, limit) times, and its attempts are exactly its NACKs plus its eviction and crash requeues plus the delivery in progress |
| `CrashSafety.NackRoutes` | broker/queue_manager.py:341-373 | a NACK dead-letters exactly when attempts reached the limit, and otherwise puts the task at the head of its queue with its attempts kept |
| `CrashSafety.DeadLetterPayload` | broker/server.py:424-428 | the stored dead letter has the task's payload exactly when fewer than 100 entries were ahead of it or the payload is the empty object |
| `Witnesses.PayloadForgotten` | broker/server.py:424-428 | a run of a broker with the default of three attempts after which the 101st dead letter has lost its payload |
| `Witnesses.ReplayTorn` | persistence/wal_store.py:434-438 | a run with the default of three attempts in which a crash between the two commits leaves a task in neither table |
| `Witnesses.TakenUnanswered` | broker/server.py:258-270 | a run in which a produced task is kept although its producer was never answered |
| `Recovery.RebuiltQueue` | broker/server.py:749-769 | each rebuilt queue is the live rows of that queue in the order they were loaded |
| `Recovery.RecoveryIdempotent` | broker/server.py:749-769 | recovery cut off after any number of rows and started again at any later time rebuilds the same memory up to creation times, the same rows, and each queue as its live rows in order of creation |
| `Tracking.CarefulExactly` | broker/worker_registry.py:208-255 | a command keeps every in-flight task tracked by its worker if and only if it does not hand a task to an unregistered worker and does not re-register a worker that holds one |
| `Tracking.AdriftStays` | broker/worker_registry.py:274-302 | an in-flight task that no registered worker tracks stays in flight through every eviction pass and other command until it is answered or the broker restarts |
| `Witnesses.UnregisteredConsumer` | broker/worker_registry.py:223-227 | a run after which the task of a worker that never registered is in flight and tracked by nobody |
| `Witnesses.RegisteredTwice` | broker/worker_registry.py:147-158 | a run after which the task of a worker that registered again is in flight and tracked by nobody |
| `Custody.CleanExactly` | broker/worker_registry.py:244-255 | a command keeps every tracked task in flight with its one tracker as its worker if and only if it is no accepted answer that leaves somebody else tracking the task |
| `Custody.TakenOnlyFromTheSilent` | broker/worker_registry.py:274-302 | over every run in which accepted answers come from the task's own worker, a task an eviction pass takes was assigned to a worker that tracked it and was not heard from for more than 6 seconds |
| `Custody.PassDecidesByHolder` | broker/worker_registry.py:274-302 | if moreover no delivery and no registration sets a task adrift, a task stays in flight through a pass exactly when its own worker was heard from in the last 6 seconds |
| `Witnesses.TakenFromTheLiving` | broker/server.py:394-446 | a run in which a worker nobody knows answers for a task, after which the eviction of its first holder takes the task from the live worker that has it |
| `Tracking.NoStuckTask` | broker/worker_registry.py:257-302 | under that discipline, right after an eviction pass at time t every in-flight task belongs to a registered worker heard from at or after t - 6 |
| `EvictionTiming.SteadyNeverEvicted` | broker/worker_registry.py:197-204 | a worker whose heartbeat gaps never exceed 6 seconds is never evicted |
| `EvictionTiming.SilentUntil` | broker/worker_registry.py:274-284 | however far apart the passes are, a worker that falls silent is still registered exactly as long as no pass has come later than 6 seconds after its last heartbeat |
| `EvictionTiming.EvictedWithinWindow` | broker/worker_registry.py:304-325 | the pass that removes a silent worker is exactly the first later than 6 seconds after its last heartbeat, at most 6 seconds plus the gap between passes after it: 8 for passes 2 seconds apart |
| `Rates.RateBounds` | broker/load_shedder.py:209-238 | the fill rate lies between the floor and max(floor, base) for every depth and latency |
| `Rates.RateAntitone` | broker/load_shedder.py:209-238 | more depth or more latency never raises the fill rate |
| `Rates.CalmRate` | broker/load_shedder.py:209-238 | at or below both thresholds the rate is max(floor, base) |
| `Rates.SlowRate` | broker/load_shedder.py:223-238 | with latency alone above its threshold the rate falls on a straight line to a tenth of the base at 10 times the threshold, then stays, and never passes below the floor |
| `Rates.DeepRate` | broker/load_shedder.py:212-238 | with depth alone above its threshold the rate falls on a straight line to a twentieth of the base at 10.5 times the threshold, then stays, and never passes below the floor |
| `Rates.LoadedRate` | broker/load_shedder.py:209-238 | under both, the rate is the floor or the base times the share the depth leaves times the share the latency leaves |
| `Rates.DefaultRates` | broker/load_shedder.py:127-146 | numbers at the default tuning: 100 at rest, 50 at latency 1200 or depth 300, 25 at both, 10 at depth 500 or latency 2000, 5 at the bottom |
| `Rates.DepthFloorAt` | broker/load_shedder.py:212-221 | the depth factor is at its floor exactly from 10.5 times the threshold on, and is 0.1 at 10 times |
| `Rates.LatencyFloorAt` | broker/load_shedder.py:223-232 | the latency factor is at its floor exactly from 10 times the threshold on |
| `Buckets.RunFits` | broker/load_shedder.py:43-71 | the token count stays in [0, capacity] over every trace with varying rates |
| `Buckets.PaidFor` | broker/load_shedder.py:43-71 | admissions plus the tokens left never exceed the starting tokens plus the top rate times the elapsed time |
| `Buckets.WindowCap` | broker/load_shedder.py:264-283 | between any two accesses at most capacity plus the top rate times the time between them is admitted |
| `Buckets.RefusedOnlyWhenSpent` | broker/load_shedder.py:264-283 | at every refusal, since the last access that found the bucket full more than capacity - 1 plus the floor rate times the elapsed time was admitted |
| `Buckets.LookingChangesNothing` | broker/load_shedder.py:285-319 | at a constant rate, removing all monitoring calls from a trace leaves every answer to a producer the same |
| `Buckets.LookShifts` | broker/load_shedder.py:55-58 | with different rates, a look leaves the level found by the next refill unchanged if and only if both end full, no time had passed, or the rates are equal |
| `Buckets.LookFlipsAnswer` | broker/load_shedder.py:285-319 | a look leaves the answer to the next request the same if and only if the bucket holds less than one token at most, or the level without the look and the level shifted by the look are on the same side of one token |
| `Buckets.LookDirection` | broker/load_shedder.py:285-319 | a look at a higher rate than the request's never costs an admission and one at a lower rate never gains one |
| `Buckets.LooksChangeAnswers` | broker/load_shedder.py:285-319 | two traces in which a look turns the next answer, one each way |
| `Buckets.HintHonoured` | broker/load_shedder.py:264-283 | a request made no sooner than the hint after a refusal is admitted if nothing was admitted meanwhile and no rate used since was lower |
| `Buckets.HintIsTight` | broker/load_shedder.py:264-283 | from an empty bucket at a steady rate a request is admitted if and only if it comes no sooner than the hint |
| `Buckets.DefaultHint` | broker/load_shedder.py:127-146 | with the default tuning the hint lies between a hundredth and a fifth of a second for every depth and latency |
| `LoadShedder.QueuesAreIsolated` | broker/load_shedder.py:155-178 | a queue's bucket and admissions depend on that queue's calls only |
| `LoadShedder.AdmissionCap` | broker/load_shedder.py:180-283 | over any stretch of any mix of calls each queue admits at most capacity + max(floor, base) times the stretch |
| `LoadShedder.AdmissionFloor` | broker/load_shedder.py:180-283 | in any mix of calls, a request for a queue is refused only if, since the last call that found its bucket full, that queue admitted more than capacity - 1 plus the floor rate times the time |
| `LoadShedder.EveryRequestCounted` | broker/load_shedder.py:264-283 | allowed plus rejected equals the number of produce requests; looks count as neither |
| `LoadShedder.TokenBucket.RefillTo` | broker/load_shedder.py:55-58 | the elapsed time is booked at the given rate, capped at capacity |
| `LoadShedder.TokenBucket.Consume` | broker/load_shedder.py:68-71 | a whole token is taken if there is one, otherwise nothing changes |
| `LoadShedder.AdaptiveLoadShedder.CheckAndConsume` | broker/load_shedder.py:264-283 | the queue's bucket, created full if new, is refilled at the current rate and a token taken; the counters and the hint follow the outcome |
| `LoadShedder.AdaptiveLoadShedder.GetBucketInfo` | broker/load_shedder.py:297-307 | an existing bucket is refilled and read; a missing one is reported and not created |
| `LoadShedder.AdaptiveLoadShedder.GetStats` | broker/load_shedder.py:309-328 | every bucket is refilled at its own queue's rate and read, none is created, and no counter moves |
| `Producer.CeilingsRise` | producer/backoff.py:117-122 | the wait ceiling never falls from attempt to attempt and never passes the maximum |
| `Producer.CeilingsMultiply` | producer/backoff.py:117-122 | for every policy the first ceiling is the base and each further one the multiplier times the one before, cut off at the maximum |
| `Producer.DefaultCeilings` | producer/backoff.py:117-122 | with the defaults the ceilings are 1, 2, 4, 8, 16, 32 and then 60 seconds |
| `Producer.DelayBounds` | producer/backoff.py:124-133 | whatever the jitter, a wait is at least the hint and at most the larger of hint and ceiling |
| `Producer.DelayValues` | producer/backoff.py:117-133 | without jitter the wait is the larger of hint and ceiling, with jitter and no hint the draw times the ceiling, and the draws 0 and 1 reach the hint and the roof |
| `Producer.EveryWaitPossible` | producer/backoff.py:117-133 | with jitter every wait from the hint to the larger of hint and ceiling comes out for some draw |
| `Producer.DefaultDelays` | producer/backoff.py:117-133 | with the defaults the wait is the larger of the hint and the draw times 1, 2, 4, 8, 16, 32 and then 60 seconds |
| `Producer.WaitsAsAsked` | producer/client.py:182-193 | after a rate-limit reply the producer waits at least as long as it was told, or a second if it was not told |
| `Producer.ExponentialBackoff.NextWait` | producer/backoff.py:111-135 | fails exactly when the attempts are used up, otherwise returns the delay of this attempt and counts it |
| `Producer.Produce` | producer/client.py:166-200 | at most max(0, retries) + 1 requests; all but the last were rate limited; the outcome is what became of the last one, a lost connection included; it gives up exactly when all the allowed requests were rate limited; each wait is the backoff's for its own reply |
| `Producer.OneTask` | producer/client.py:166-200 | a produce call leaves exactly one task with the broker if it returns, none if it raises on a refusal or after its retries, and if it raises on a lost connection what that last request left: never more than one |
| `Producer.RaisedButTaken` | producer/client.py:120-131 | a call that raises on a lost connection after the broker took its task |
| `Producer.TotalWait` | producer/client.py:182-193 | the waits add up to at least the hints and at most the sum of max(ceiling, hint) |
| `Producer.DefaultWait` | producer/client.py:182-193 | with hints of at most a second, n waits take at most 2^n - 1 seconds, and 63 + 60 (n - 6) past the sixth |
| `Producer.ProduceBatch` | producer/client.py:202-230 | a batch that returns reports exactly the ids the broker took, in order, one per payload; one that raises has placed the payloads before the failing one, and the failing one too exactly if the broker took it before the connection broke |
| `Producer.RetryIsAdmitted` | producer/client.py:182-193 | a refused producer that sleeps as its backoff says is admitted on its next try if nothing else was admitted and the rate did not fall |
| `Framing.PrefixRoundTrip` | producer/client.py:121-128 | decoding the four-byte prefix of a length below 2^32 gives the length |
| `Framing.LengthRoundTrip` | producer/client.py:121-128 | encoding the length read from four bytes gives the four bytes |
| `Framing.BigEndian` | producer/client.py:121-128 | the four bytes are the digits of the length to the base 256, most significant first |
| `Framing.StreamRoundTrip` | broker/server.py:100-135 | messages within the limit, framed and followed by anything, are read back followed by whatever the rest reads as |
| `Framing.ReadIsFaithful` | broker/server.py:100-135 | every byte stream is its messages framed again, followed by an oversized header or an unfinished frame |
| `Framing.ChunkingIsInvisible` | broker/server.py:100-115 | however the network cuts a framed stream, the same messages are read |
| `Framing.CutDeliversWholeMessages` | broker/server.py:137-139 | a stream cut inside message n delivers exactly the first n messages |
| `Framing.HandleConnection` | broker/server.py:99-146 | the bytes the broker writes are the framed answers to the messages it read, in order, up to the first whose handler raises, and one complaint if it got as far as an oversized header |
| `Framing.Conversation` | producer/client.py:121-131 | end to end, under any cutting in both directions, the client reads the i-th answer to its i-th request, exactly up to the first request whose handler raises, and nothing more |
| `Framing.OversizedEnds` | broker/server.py:107-114 | the first header above ten megabytes gets one complaint if everything before it was answered, and nothing after it is answered |
| `WorkerConnection.OwnResponse` | worker/base_worker.py:172-187 | over every interleaving, a call reads the response to its own request if and only if no earlier call was cancelled between write and read |
| `WorkerConnection.Outstanding` | worker/base_worker.py:172-187 | requests without a read response: one for the call holding the lock plus one per cancelled call |
| `WorkerConnection.NeverStuck` | worker/base_worker.py:172-187 | a call waiting for its response always has one to read or a broker with a request to answer |
| `WorkerConnection.WorkerReadsItsOwn` | worker/base_worker.py:334-352 | since the worker writes nothing after a cancellation, each of its completed calls has its own response |
| `WorkerConnection.CancelledThenReused` | worker/base_worker.py:172-187 | without that discipline a call reads the response of the cancelled one |
| `Metrics.PruneWindow` | broker/metrics_collector.py:89-93 | after pruning, the deque's length is the number of all recorded times in the window |
| `Metrics.MetricsCollector.RecordConsume` | broker/metrics_collector.py:117-123 | the delivery's time and queue are remembered and the queue's total rises; nothing already recorded changes |
| `Metrics.MetricsCollector.RecordNack` | broker/metrics_collector.py:143-152 | a failed delivery is forgotten and yields neither a latency nor throughput; the totals rise, the dead letter total only if it was dead-lettered |
| `Metrics.MetricsCollector.RecordAck` | broker/metrics_collector.py:125-141 | an acknowledgement is recorded for throughput and in the total, and its latency exactly when the delivery was seen |
| `Metrics.MetricsCollector.Throughput` | broker/metrics_collector.py:156-170 | under any earlier mix of records and queries, the rate is the number of acknowledgements recorded in the last ten seconds, divided by ten |
| `Metrics.MetricsCollector.PercentileLatency` | broker/metrics_collector.py:183-201 | the percentile is taken over the last thousand latencies recorded |
| `Metrics.PercentileRank` | broker/metrics_collector.py:194-201 | with i the rank asked for, at least i + 1 samples are no greater than the p-th percentile and at least n - i no smaller |
| `Metrics.PercentileMeaning` | broker/metrics_collector.py:194-201 | at most p percent of the samples are smaller than the p-th percentile and more than p percent are no greater; from 100 on it is the largest sample |
| `Metrics.LatestAreNewest` | broker/metrics_collector.py:59-78 | the latency samples kept are the newest, in order, and a thousand of them once there have been that many |
| `Metrics.PercentileMonotone` | broker/metrics_collector.py:194-201 | the percentile never falls as p grows |

## Left out

- The command handlers with no store configured: the interleavings of `Lifecycle` and `RetryDead` cover what they do to memory.
- `broker/http_api.py` and the dashboard: HTTP plumbing and display.
- `worker/task_executor.py` and `run_worker.py`: process pools and demonstration task bodies.
- The worker's consume loop beyond its use of the connection: poll, execute, ACK or NACK in sequence.
- SQLite itself (threads, pragmas, power loss): the store is two committed maps, and a crash loses memory only.
- JSON and UTF-8: payloads and messages are opaque; a message that is not JSON is one the broker answers with an error, and JSON that is no object one whose handler raises.
- Floating point rounding: times, rates and tokens are exact reals.
- `_reset_handler`, `_crash_worker_handler` and replay-all with persistence on: operator actions that bypass the store.
- Broker metadata, DLQ_LIST and STATS output, `unregister`, `delete_task`, `load_all_tasks`, `clear_all_data`: read-only or unused by the commands modelled.
- Task fields `updated_at`, `dead_lettered_at`, `error` and `final_error`: written and shown, never consulted.
- BrokerServer.WorkerRegistry.AssignTask: does not record the start time of the task, because only the latency average uses it and that average is an input of the load shedder.
- BrokerServer.WorkerRegistry.CompleteTask: does not record a latency sample, for the same reason.
- Produce times, produce totals and the snapshot in the metrics collector: the same window as throughput, and plain counters.
- Logging, sockets, signals, the randomness of jitter beyond its range, Docker and the benchmark scripts.
- Ids longer than a number, and a payload longer than 2^32 bytes, on which the encoder raises.
- The containers of the queue manager refer to task objects by id through one map, so two containers share a task as they do in the source; object identity beyond that is not modelled.
- BrokerServer.Server.Recover: uses one clock reading for the whole loop, because recovered tasks' in-memory creation times are never compared.
- BrokerServer.Server.HandleProduce: takes the load shedder's verdict as an input; Admission.ServeProduce is the command with the shedder.
- LoadShedder.AdaptiveLoadShedder.GetStats: uses one clock reading for all buckets of a call and reports exact values, not values rounded to two places, without the rejection rate, which is a quotient of two counters.
- LoadShedder.AdaptiveLoadShedder.GetBucketInfo: reports exact values and leaves out the nominal rate, a constant.
- WorkerConnection.OwnResponse: does not model a cancellation between reading a response's length and reading its body.
- Metrics.PercentileRank: takes p as non-negative, because the source documents 0 to 100 and a negative index would count from the end.
