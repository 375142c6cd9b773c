# GPU benchmark platform: the life of a benchmark job

This project models how a `BenchmarkJob` object becomes one benchmark run, across the three layers that share its state, and proves what holds over all interleavings of them.

1. **Submission.** Any number of POST handlers run `create_benchmark` concurrently: look-up, SELECT on `gpu_models`, flush of a new model row, commit under the unique indexes, look-up after a conflict, and then one push to the queue if the row was created.
2. **Queue and workers.** A FIFO of messages, any number of workers, retries with an attempt counter, a dead-letter list, and status setters that never look at the old status.
3. **Operator.** A phase machine stored in the object, driven by reconcilers that may work on old copies; every write is a compare-and-swap on `resourceVersion` ("Concurrency Control and Consistency" in the Kubernetes API Conventions).

## How it is built

There are two forms, over the same specification functions.

- Classes whose methods follow the code step by step: `BenchmarkService.Database`, `QueueService.RedisQueueService` (with the payload dictionary that is changed in place), `BenchmarkWorker.WorkerProcess`, `BenchmarksApi.Router`, and `Reconciler.BenchmarkJobReconciler` with the in-memory copy and the API server. Each method is proved against a function or predicate on values.
- A protocol: `Backend.Next` is one atomic step of one handler or worker, `Platform.Next` one step of the whole platform, with a program counter per handler, worker and reconciler, crashes at every point, and lost replies. An action that is not enabled changes nothing, so every list of actions is a run; `Reachable` holds of the states that some list leads to from `Start`, and the promises are stated for all of them.

The versions of an object are kept as a sequence whose index is the resourceVersion, so a stale read is an old index and a whole life can be talked about. `Log` and `saw` only observe: no step reads them.

The two forms are tied together: what the worker class does is a run of the protocol (`WorkerRuns`), and what any handler of the protocol does, whatever is interleaved with it, is one call of the `create_benchmark` of the class (`Sessions`).

Files, in reading order: `Types`, `Tallies`, `Tables`, `Backend`; the backend invariant in `Submission`, `Conservation`, `Accounting`; the promises of the backend in `Lifecycle`; `QueueService`, `BenchmarkService`, `BenchmarksApi`, `Sessions`; `Worker`, `WorkerRuns`, `BenchmarkWorker`, `Endings`, `BackendWitnesses`; `Keys`; `Losses`, `Fifo`; `Operator`, `AnyBackend`, `Reconciler`; `Platform` with its invariant; `Guarantees`, `Admission`, `Progress`, `Witnesses`, `Exactness`, `ObjectEndings`, `Environment`.

## Assumptions

- A commit that raises has stored nothing; rows are never deleted; a drawn `uuid4` is never drawn again.
- While a session holds an uncommitted `gpu_models` row, another INSERT of that name waits for it (a unique index in PostgreSQL).
- A session in which a statement or a commit of an open transaction has raised refuses everything until it is rolled back (SQLAlchemy 2). An exception of the engine, and a session that got no connection at all, leave it usable. By the time of `complete_benchmark` the session holds a connection, since `mark_running` has refreshed the row.
- PostgreSQL refuses a string that is longer than its column or holds a NUL, and an integer beyond 32 bits.
- A GET returns the row as it was at one instant, or nothing.
- The spec of a BenchmarkJob is fixed, a namespace and name is used by one object, its `schedulerAPIURL` leads to this backend, and nobody but the operator writes its status or this finalizer. Namespaces are non-empty and have no `/`.
- A crash may lose the message that a worker holds or the push that a handler owes; both go to the `lost` count.
- The digest is a parameter that returns 64 hexadecimal digits; where two anonymous requests are compared it is assumed not to collide on them.

## Where the code and its documentation differ

The model follows the code, and the differences are theorems.

- The state machine in the documentation starts with (empty) to Pending. The code goes from the empty phase straight to Submitted; Pending is only ever the phase of a retry (`Operator.StatusChangeLegal`).
- A retry is said to use a new variant of the key (operator/controllers/benchmarkjob_controller.go:254), but the key has no such part (line 132). So a retry finds the failed row again: `Guarantees.RetriesNeverRevive`, `Guarantees.OneJob`.
- `handleSubmitted` has no case for "completed". A benchmark that completes between submission and the first poll leaves its object short of Running for ever: `Guarantees.MissedNeverCompletes`, reachable by `Witnesses.CanMiss`, and exactly when by `Exactness.CompletesExactly`. The integration test answers every GET with "completed" and expects Completed (operator/controllers/suite_test.go:70-79,133-138); `Operator.NoRunningNoCompleted` says that no run of the code gets there.
- The backend has no DELETE route, so the cancellation in `handleDeletion` changes nothing there (405, section 15.5.6 of RFC 9110) and deletion touches only the object.
- A Completed object need not show a result for its own spec: POST takes any `idempotency_key`, so a client can take `namespace/name` for another submission (`Witnesses.ForgedCompletes`). `Exactness.OwnResultsExactly` says exactly when.
- `queued -> failed` is possible without `running`: exactly when no `mark_running` was ever stored (`Lifecycle.StatusEdges`), and for every limit there is such a run (`BackendWitnesses.FailsUnmarked`).
- There is no time-out and no recovery of messages: a job whose process dies at the wrong place never ends, and neither does its object (`Endings.EndsExactly`, `ObjectEndings.ObjectEndsExactly`).
- The except branch of the worker calls `mark_failed` on the session in which the exception may just have arisen, without a rollback. If the commit of the last attempt raises, `mark_failed` raises as well: the worker dies and the benchmark stays running for ever (`BackendWitnesses.BreaksAtLast`).
- The operator does not check the length of its key, and treats a 422 like any other failure: an object with a namespace and name of more than 127 characters is resubmitted for ever and never leaves the empty phase (`Admission.RefusedStaysBlank`, `Exactness.LeavesExactly`).
- The IntegrityError of the flush in `_get_or_create_gpu_model` is outside the `try` of `create_benchmark`: a submission under its own, fresh key is refused when another one commits the same new model in between. `BenchmarkService.Database.CreateBenchmark` states exactly when, and `BackendWitnesses.RefusesFreshKey` is such a run.

## Model

| member | source | states |
|---|---|---|
| Guarantees.Provenance | operator/controllers/benchmarkjob_controller.go:202-233 | in every reachable state a Completed object shows all three metrics of the result row of the only benchmark under its key, and that row holds the outcome of an engine run on the submission with which some request under that key, which passed the schema and fits the columns, created the benchmark |
| Exactness.OwnResultsExactly | operator/controllers/benchmarkjob_controller.go:127-133 | for every object and every set of submissions: on all runs in which the clients that choose the key of the object send submissions from that set, all results the object ever shows are from engine runs on its own spec, if and only if the schema refuses the object's own request, or the set holds no other submission that the schema lets through under that key and the columns can hold |
| Witnesses.ForgedCompletes | backend/app/api/benchmarks.py:20-36 | for every object whose request passes the schema, and every submission that can be stored under its key, there is a run in which the object ends Completed with the result for that submission; if it is not its own, a client has taken the key first |
| Admission.RefusedStaysBlank | backend/app/schemas/benchmark.py:7-11 | an object whose own request the schema refuses (key over 128 characters, batch size not positive) stays in the empty phase on every run |
| Admission.TooLongStaysBlank | backend/app/schemas/benchmark.py:10-11 | the same in numbers: namespace, '/' and name of more than 128 characters together, or a batch size below 1 |
| Exactness.LeavesInNumbers | backend/app/models.py:13-47 | an object whose key nobody else chooses can leave the empty phase if and only if namespace, '/' and name have at most 128 characters together, model and workload at most 64, none with a NUL, and the batch size is from 1 to 2147483647 |
| Exactness.LeavesExactly | backend/app/schemas/benchmark.py:7-11 | for every object and every set of submissions that clients send under its key: some run takes the object out of the empty phase if and only if its own request passes the schema and its own submission or one of the set can be stored under the key |
| Guarantees.KeysRespectedUnlessForged | operator/controllers/benchmarkjob_controller.go:127-133 | on every run each request under the key of an object carries its own spec or one that a client sent with that key by choice; other objects, the provider and keyless requests never hit the key |
| Guarantees.RefinesPhaseMachine | operator/controllers/benchmarkjob_controller.go:71-112 | any number of reconcilers on stale copies, with duplicated calls and lost replies, refine the atomic phase machine: a step leaves the versions of an object alone or adds one edge to the latest one |
| Guarantees.StatusChangesLegal | operator/controllers/benchmarkjob_controller.go:320-331 | every stored status change is a legal phase change on an object that is not being deleted; Completed, Failed and the deletion timestamp freeze the status in all later versions |
| Guarantees.RetriesNeverRevive | operator/controllers/benchmarkjob_controller.go:242-266 | a version with a retry means that its benchmark has failed for good: no later version is Running or Completed, and Completed means no retry |
| Guarantees.RetriesInNumbers | operator/controllers/benchmarkjob_controller.go:247-265 | in every reachable state a Failed object has RetryCount m for maxRetries m > 0, 3 for 0 and 0 for a negative one, and a poll that says "failed" leads to Pending if and only if RetryCount is below that number |
| Guarantees.OneJob | operator/controllers/benchmarkjob_controller.go:117-164 | over the whole life of an object, also while no reply has reached it, at most one benchmark has its key; every JobID names that one; at most one message is pushed for it and the engine is called at most max(1, worker_max_retries) times |
| Guarantees.LayersCoupled | operator/controllers/benchmarkjob_controller.go:158-163 | for every version: JobID set exactly outside the empty and Pending phases and naming the row under the key; Running, Completed and Failed agree with the row's status; CompletionTime exactly in terminal phases; JobID without deletion implies the finalizer |
| Guarantees.WritesAgainstThisBackend | operator/controllers/benchmarkjob_controller.go:167-266 | at most 2R+3 status writes in the life of an object, R being the effective retries |
| Guarantees.MissedNeverCompletes | operator/controllers/benchmarkjob_controller.go:178-188 | once the benchmark is completed and no write of Running on the latest version is under way, an object short of Running stays so on every continuation |
| Exactness.CompletesExactly | operator/controllers/benchmarkjob_controller.go:166-189 | in every reachable state with the benchmark completed: some continuation brings the object to Completed if and only if it is Completed, or is not being deleted and is Running or about to be stored as Running on its latest version |
| Exactness.BoundIsReachedHere | operator/controllers/benchmarkjob_controller.go:167-266 | there is a run with exactly 2R+3 status writes, for every worker limit, if and only if the object can leave the empty phase at all |
| Guarantees.StuckNeverEnds | operator/controllers/benchmarkjob_controller.go:167-189 | once the benchmark of an object is stuck, no continuation has a Completed or Failed version of the object |
| ObjectEndings.ObjectEndsExactly | operator/controllers/benchmarkjob_controller.go:71-112 | in every reachable state some continuation brings the object to Completed or Failed if and only if it is there already, or it is not being deleted, its request passes the schema, its key can be stored, its benchmark, if there is one, is not stuck, and, if that is completed, the object is Running or about to be stored as Running |
| Guarantees.CompletedSawRunning | operator/controllers/benchmarkjob_controller.go:166-189 | Completed occurs only if some poll of the object returned "running" |
| Platform.PlatformStep | operator/controllers/benchmarkjob_controller.go:71-112 | one step of any handler, worker, reconciler, user or crash keeps the coupling of all stored versions and of all writes under way with the tables |
| Platform.PollCoupled | operator/controllers/benchmarkjob_controller.go:191-239 | what a poll makes a reconciler write agrees with the tables at the instant of the GET |
| Platform.PostCoupled | operator/controllers/benchmarkjob_controller.go:150-163 | so does what a POST reply makes it write |
| Progress.FailedExactly | operator/controllers/benchmarkjob_controller.go:242-266 | once the benchmark has failed, n undisturbed reconciles lead to Failed if and only if the object's request passes the schema and n covers a resubmission and a poll for each remaining retry; RetryCount is then the maximum |
| Progress.CompletedExactly | operator/controllers/benchmarkjob_controller.go:191-239 | once the benchmark is completed, undisturbed reconciles lead to Completed if and only if the object was Running (or already Completed) |
| Progress.DeletionTurn | operator/controllers/benchmarkjob_controller.go:269-297 | in every reachable state one undisturbed reconcile of an object that is being deleted takes its finalizer off, keeps its status, and changes nothing in the backend |
| Progress.DeletedGoes | operator/controllers/benchmarkjob_controller.go:83-94 | any object that is there can be deleted: the request and one undisturbed reconcile take it away for good, with the status that it had |
| Progress.TurnsVisit | operator/controllers/benchmarkjob_controller.go:71-112 | undisturbed reconciles of the interleaved platform compute what the atomic machine computes against unchanging tables |
| Progress.TurnsAreRuns | operator/controllers/benchmarkjob_controller.go:71-112 | and they lead from reachable states to reachable states, so the guarantees apply to what they reach |
| Witnesses.CanMiss | operator/controllers/benchmarkjob_controller.go:178-188 | for every object whose request passes the schema, and every submission that can be stored under its key, there is a run in which the benchmark completes before the first poll |
| Exactness.MissesExactly | operator/controllers/benchmarkjob_controller.go:178-188 | there is such a run if and only if the object can leave the empty phase at all |
| Operator.WritesAgainstAnyBackend | operator/controllers/benchmarkjob_controller.go:117-266 | at most 3(R+1) status writes, whatever the backend replies |
| AnyBackend.InterleavedBound | operator/controllers/benchmarkjob_controller.go:71-112 | the same for any number of reconcilers on stale copies and any replies at any time; every version is sound, and terminal phases and deletion freeze the status |
| AnyBackend.HistoriesExactly | operator/controllers/benchmarkjob_controller.go:71-112 | the histories that some interleaving and some replies bring about are exactly those that begin with a new object, go along edges of the atomic machine, and end when the object is gone |
| AnyBackend.InterleavedBoundReached | operator/controllers/benchmarkjob_controller.go:117-266 | for every maxRetries some run of them makes exactly 3(R+1) status writes |
| AnyBackend.StepRefines | operator/controllers/benchmarkjob_controller.go:71-112 | there, too, a step adds one edge of the atomic phase machine to the latest version or no version |
| Operator.BoundIsReached | operator/controllers/benchmarkjob_controller.go:117-266 | some backend makes the operator write that often |
| Operator.HistoryBound | operator/controllers/benchmarkjob_controller.go:242-266 | writes made and writes ahead never exceed 3(R+1), by a measure over RetryCount and phase that every status write lowers |
| Operator.FrozenAfter | operator/controllers/benchmarkjob_controller.go:83-107 | terminal phases and deletion freeze the status, for any replies |
| Operator.FailedPoll | operator/controllers/benchmarkjob_controller.go:242-266 | the object that is written after a poll that says "failed", with the effective maximum as a number |
| Operator.StatusChangeLegal | operator/controllers/benchmarkjob_controller.go:97-111 | the phase changes the code can make, and that they happen on a live object with its finalizer |
| Operator.WriteTouchesOnly | operator/controllers/benchmarkjob_controller.go:158-163 | which fields a status write changes and which it keeps |
| Operator.NoRunningNoCompleted | operator/controllers/suite_test.go:61-83 | against a backend whose polls never say "running" no object gets to Running or Completed |
| Reconciler.BenchmarkJobReconciler.Reconcile | operator/controllers/benchmarkjob_controller.go:71-112 | stores what the atomic machine writes when the copy is the latest version, and nothing otherwise; a current object that is being deleted is then no longer in the store, and one without the finalizer has got it |
| Reconciler.BenchmarkJobReconciler.HandlePending | operator/controllers/benchmarkjob_controller.go:117-164 | the object stored after an accepted POST; no write after any other reply |
| Reconciler.BenchmarkJobReconciler.HandleSubmitted | operator/controllers/benchmarkjob_controller.go:167-189 | the same for the poll of a Submitted object |
| Reconciler.BenchmarkJobReconciler.HandleRunning | operator/controllers/benchmarkjob_controller.go:192-239 | the same for the poll of a Running object |
| Reconciler.BenchmarkJobReconciler.HandleFailure | operator/controllers/benchmarkjob_controller.go:242-266 | retry or Failed, on the copy and in the store, with every field and the maximum written out |
| Reconciler.BenchmarkJobReconciler.HandleDeletion | operator/controllers/benchmarkjob_controller.go:269-297 | the finalizer is taken off and the object goes |
| Reconciler.BenchmarkJobReconciler.SetPhase | operator/controllers/benchmarkjob_controller.go:320-331 | the status is written under compare-and-swap, metadata is left alone |
| Lifecycle.OnePlaceEach | backend/app/workers/benchmark_worker.py:20-59 | in every reachable state owed pushes, queued and held messages, dead letters, completions and losses add up to one for each committed benchmark and to zero for any other id |
| Lifecycle.StatusesFinal | backend/app/services/benchmark_service.py:128-167 | statuses only move forward, both ends are final and results never change, although no setter tests the old status |
| Lifecycle.StatusEdges | backend/app/services/benchmark_service.py:128-167 | the only changes are queued to running to completed or failed, and queued to failed exactly when no mark_running was stored |
| BackendWitnesses.FailsUnmarked | backend/app/workers/benchmark_worker.py:53-59 | for every limit and every request that can be stored, a reachable state from which one step takes its benchmark from queued to failed |
| BackendWitnesses.BreaksAtLast | backend/app/workers/benchmark_worker.py:53-59 | for every limit and every request that can be stored, a run without any crash after which its benchmark is dead-lettered, its worker has died of the second exception, and its status is running |
| Endings.EndsExactly | backend/app/workers/benchmark_worker.py:20-59 | in every reachable state a benchmark can come to completed or failed if and only if no crash lost its push or message, no worker dead-lettered it without being able to store the failure any more, and its last attempt has not raised in an open transaction |
| Losses.LosesExactly | backend/app/workers/benchmark_worker.py:20-59 | in every reachable state a benchmark can still be lost for good if and only if it has not ended |
| Losses.OwedLost | backend/app/api/benchmarks.py:25-35 | a handler that dies before its push loses the job, and nothing else changes |
| Losses.HeldLost | backend/app/workers/benchmark_worker.py:20-26 | so does a worker that dies with a message |
| Losses.RaisingDooms | backend/app/workers/benchmark_worker.py:33-59 | an exception in the last attempt makes the failure unstorable exactly when it leaves an open transaction behind, and always at the commit of the result |
| Losses.RequestsCanFail | backend/app/api/benchmarks.py:20-36 | until a request has been answered one step can end it without an answer for good, and after that none can |
| Fifo.FirstInFirstOut | backend/app/services/queue_service.py:15-26 | over every run the queue is what came in, the last first, before what was there, less what workers took from the other end, and the dequeue counts are those of the messages taken |
| Fifo.NoOvertaking | backend/app/services/queue_service.py:15-26 | a message is still queued behind the same messages or fewer, or it and all before it have been taken |
| Endings.StuckStays | backend/app/services/queue_service.py:22-30 | a benchmark that is stuck in this way stays so on every continuation |
| Lifecycle.SettersLater | backend/app/services/benchmark_service.py:128-167 | given what the invariant says of the one row its caller holds, each setter moves it forward |
| Lifecycle.AttemptsAccounted | backend/app/services/queue_service.py:18-30 | a message's attempt counts the earlier dequeues of its benchmark and stays below max(1, worker_max_retries); a dead letter has used them all; dequeues are attempt_count plus processings whose mark_running stored nothing plus those not there yet; the attempt in a result row is the number of dequeues |
| Lifecycle.EngineBound | backend/app/workers/benchmark_worker.py:36-40 | the engine is called at most max(1, worker_max_retries) times for one benchmark |
| Lifecycle.ResultsMatch | backend/app/services/benchmark_service.py:138-161 | a result row exists exactly when the benchmark is completed, holds what an engine run on that submission returned, and its insert never meets the unique index |
| Lifecycle.SubmissionRace | backend/app/services/benchmark_service.py:20-73 | of any handlers for one key all 202 replies carry one id, at most one was the creator, at most one message is pushed, and the re-raise is unreachable |
| Lifecycle.ModelsExact | backend/app/services/benchmark_service.py:169-177 | the committed models are those of committed benchmarks, each name once, no orphans, whoever loses a race |
| Lifecycle.RowsComeFromRequests | backend/app/services/benchmark_service.py:37-45 | every row is what some handler submitted under its key, passes the schema and fits its columns, and the unique index finds it |
| Accounting.InvStep | backend/app/workers/benchmark_worker.py:28-59 | one step of any handler, worker or crash keeps the invariant of the backend |
| Conservation.Alone | backend/app/workers/benchmark_worker.py:28-34 | the message a worker holds is the only trace of its benchmark |
| Submission.ConflictIsOnKey | backend/app/services/benchmark_service.py:47-53 | a conflict of the commit is always on the key |
| Submission.InsertConsistent | backend/app/services/benchmark_service.py:37-50 | committing a benchmark, alone or with its new model, keeps keys, rows and models matched |
| Worker.RetryRounds | backend/app/services/queue_service.py:18-26 | with one worker and no arrivals a queue of equal attempts stays a block at attempt k followed by one at k+1, together in the original order |
| Worker.OldestRoundFirst | backend/app/services/queue_service.py:18-26 | so the next message never has more attempts behind it than any other |
| Worker.ServeFuel | backend/app/workers/benchmark_worker.py:53-59 | one processing uses up one chance of the message it takes, and a success spares the others |
| Worker.DrainCount | backend/app/workers/benchmark_worker.py:20-26 | processings, spared chances and chances left always add up to the chances at the start |
| Worker.NothingSpared | backend/app/workers/benchmark_worker.py:53-59 | nothing is spared if and only if every processing fails, by whichever call, or was the last attempt |
| Worker.DrainedOnce | backend/app/workers/benchmark_worker.py:28-59 | each job of the queue is at every time in one place, queued, completed or dead-lettered; so when the queue is empty it has ended exactly once |
| WorkerRuns.ServeIsARun | backend/app/workers/benchmark_worker.py:20-59 | dequeue and process, as the worker class does it, is a run of the interleaved protocol |
| BenchmarkWorker.WorkerProcess.ProcessJob | backend/app/workers/benchmark_worker.py:28-59 | database, queue and dead-letter list after one job, for every way its calls can turn out; `mark_failed` stores nothing, and ends the process, when the exception came from an open transaction |
| BenchmarkWorker.WorkerProcess.TryJob | backend/app/workers/benchmark_worker.py:33-52 | when the try raises, what is committed either way, and whether the session can still be used |
| BenchmarkWorker.WorkerProcess.Drain | backend/app/workers/benchmark_worker.py:20-26 | without arrivals the loop empties the queue unless a `mark_failed` raises, and ends with the first that does; processings, spared and remaining chances add up to the sum of max(1, worker_max_retries - attempt), and nothing is spared if and only if every processing fails or was a last attempt; each job is in one place |
| BenchmarkService.Database.CreateBenchmark | backend/app/services/benchmark_service.py:20-73 | for any commits of other sessions in between: exactly when a row is created, when the flush raises on the unique index, when a value does not fit its column and when another error of the commit shows, what is stored and answered in each case, and that the re-raise never happens; with the widths and limits of the columns as numbers |
| BenchmarkService.EndsInNumbers | backend/app/models.py:13-47 | a call whose model and workload have at most 64 characters and whose key has at most 128, without NUL, with a batch size up to 2147483647 never ends in a data error, and creates the row exactly if the key is free, the race for the model is not lost and the commit goes through; any other call never creates a row |
| Sessions.HandlersAreCalls | backend/app/services/benchmark_service.py:20-73 | on every run of the protocol each handler that did not die and had no failing database is one such call: the commits of others between its steps are those that the call allows for, and it ends as the call says |
| BackendWitnesses.RefusesFreshKey | backend/app/services/benchmark_service.py:169-177 | for any two keys and submissions of one new model, the first of which can be stored and the second of which passes the schema, there is a run in which the second handler is refused, nothing is stored under its key and no database call failed for another reason |
| BenchmarkService.Database.GetOrCreateGpuModel | backend/app/services/benchmark_service.py:169-177 | the id it returns, and exactly when the flush raises |
| BenchmarkService.Database.FindByIdempotencyKey | backend/app/services/benchmark_service.py:179-181 | the row with the key, or that there is none |
| BenchmarkService.Database.GetBenchmark | backend/app/services/benchmark_service.py:75-101 | the response for an existing row, with its model name and result |
| BenchmarkService.Database.MarkRunning | backend/app/services/benchmark_service.py:128-136 | status and attempt_count move together, or nothing is stored |
| BenchmarkService.Database.CompleteBenchmark | backend/app/services/benchmark_service.py:138-161 | status and result row are stored together, or nothing is |
| BenchmarkService.Database.MarkFailed | backend/app/services/benchmark_service.py:163-167 | the status, or nothing |
| BenchmarksApi.Router.CreateBenchmarkJob | backend/app/api/benchmarks.py:20-36 | 422 and no change exactly for a batch size below 1 or a key of more than 128 characters; the key is the client's own, or the digest of the request if that is absent or empty; otherwise one message with attempt 0 is pushed exactly when the commit created the row and the process lives, and the reply names the row under the key |
| BenchmarksApi.ClientKeysKept | backend/app/services/benchmark_service.py:20-25 | two requests with non-empty keys go under one key if and only if those are equal |
| BenchmarksApi.Router.GetBenchmarkStatus | backend/app/api/benchmarks.py:48-56 | 404 exactly for unknown ids, else the row as committed |
| QueueService.RedisQueueService.Enqueue | backend/app/services/queue_service.py:15-16 | pushed at the left end |
| QueueService.RedisQueueService.EnqueueRetry | backend/app/services/queue_service.py:18-20 | the payload itself gets the next attempt and is pushed |
| QueueService.RedisQueueService.Dequeue | backend/app/services/queue_service.py:22-26 | the message at the right end, as a new payload, or nothing |
| QueueService.RedisQueueService.MoveToDlq | backend/app/services/queue_service.py:28-30 | the payload gets the reason and is pushed to the dead-letter list |
| Environment.ClientPosts | backend/app/services/benchmark_service.py:20-25 | in the protocol a POST of any client is stored under the key it brings, the digest of its request, or the name of the provider's resource, and is let through exactly up to 128 characters and from batch size 1 |
| Environment.OperatorPosts | operator/controllers/benchmarkjob_controller.go:117-137 | a reconcile posts namespace, '/' and name with the object's own spec exactly from the empty and the Pending phase |
| Environment.StaleReconcile | operator/controllers/benchmarkjob_controller.go:320-331 | a whole reconcile may run on any old version, and then stores nothing |
| Environment.TouchDefeats | operator/controllers/benchmarkjob_controller.go:320-331 | another writer's change of the object makes every write in hand fail |
| Keys.OperatorKeyShape | operator/controllers/benchmarkjob_controller.go:132 | the key is the namespace, one '/', and the name |
| Keys.ProviderKeysInjective | provider/internal/controller/gpubenchmarkjob_controller.go:235 | the key of a provider's resource is '/' and its name, and two are equal if and only if the names are |
| Keys.DecimalReads | backend/app/services/benchmark_service.py:183-185 | the digits of a batch size read back as the batch size, without a leading zero |
| Keys.PreImageShape | backend/app/services/benchmark_service.py:183-185 | what is hashed is the model, the workload and digits that read back as the batch size, with ':' between |
| Keys.OperatorKeysInjective | operator/controllers/benchmarkjob_controller.go:132 | two objects have one key if and only if they are one object |
| Keys.KeySpacesDisjoint | provider/internal/controller/gpubenchmarkjob_controller.go:235 | only an explicit key can equal the key of a BenchmarkJob; provider and default keys cannot |
| Keys.ProviderDefaultDisjoint | provider/internal/controller/gpubenchmarkjob_controller.go:235 | provider keys and default keys differ |
| Keys.DefaultKeysParse | backend/app/services/benchmark_service.py:183-185 | submissions whose models have no ':' have one pre-image if and only if they are equal |
| Keys.DefaultKeyUnique | backend/app/services/benchmark_service.py:183-185 | a pre-image belongs to one submission alone if and only if neither its model nor its workload has a ':' |
| Keys.AnonymousShare | backend/app/services/benchmark_service.py:23-35 | with a digest that does not collide on them, two such keyless requests share a row if and only if they ask for the same |

## Left out

- HTTP, JSON, Redis and SQL drivers, timeouts, logging and telemetry: only success, failure, a lost reply and the atomic commit are kept.
- SHA-256 (section 6.2 of FIPS 180-4): a parameter, see the assumptions.
- `gpu_engine.py`: an engine call yields any metrics or raises; a failure of the refresh after `mark_running` is counted as an engine call that raised, with the session usable or not, which can only make the bounds on engine calls looser.
- Status messages, `raw_metrics` other than the attempt, timestamps of rows, and requeue delays: nothing reads them.
- The reset of an unknown phase: the CRD's enum shuts it out (config/crd/bases/benchmarks.gpu-platform.io_benchmarkjobs.yaml:82).
- `get_gpu_history`, the provider's reconcile loop, the sizing function, migrations, charts and policies: thin, or done by a library.
- `run_forever` on an endless stream of arrivals: the class stops when the queue is empty; interleavings with arrivals are covered by the protocol.
