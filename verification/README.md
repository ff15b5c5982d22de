# mini-bk: verified model

mini-bk is a small batch scheduler: tasks are submitted over HTTP, stored in a table, queued in memory or in
Redis, and dispatched by a ticking scheduler to a local executor or to remote agents. This project models its
core in Dafny and proves what the core keeps in every run.

| file | models |
|---|---|
| `tasks.dfy` | the task record and its status machine |
| `taskqueue.dfy` | the abstract queue and the order of its pops |
| `inmemqueue.dfy`, `drainrace.dfy` | the in-memory queue: a binary heap, a list, a delayed list; its drain loop against a concurrent `Size` |
| `redisqueue.dfy`, `moverrace.dfy` | the Redis queue, and its refinement of the abstract queue; its mover command by command against pops and pushes |
| `lifecycle.dfy`, `outcomes.dfy` | tasks, queue, executors, node queues and agents as one state machine; every handler is a step; what each step leaves, field by field |
| `dispatchbound.dfy`, `boundreached.dfy`, `retrypromise.dfy` | how often one task is started: the bound, a run that reaches it, and the guards under which the documented limit holds |
| `nothingstranded.dfy`, `ledger.dfy` | no task is forgotten; the running rows fit into the scheduler's limits |
| `executions.dfy`, `overcommit.dfy` | the executor's slots: when the tasks that execute fit into those limits, and how far beyond them they get |
| `firstfit.dfy`, `backoff.dfy`, `retrydelays.dfy` | what one tick dispatches; the retry delay in 64-bit arithmetic; the delays that runs reach |
| `nodes.dfy`, `liveness.dfy`, `selection.dfy` | nodes, label matching, offline detection, node selection |
| `scheduler.dfy`, `service.dfy` | the scheduler, the task store and the task service as objects; each method is proved to be a step, and a tick a run, of the machine |
| `claims.dfy`, `clusterstranded.dfy` | several schedulers that claim tasks in etcd; where every task is |
| `discovery.dfy`, `pool.dfy`, `ratelimit.dfy`, `dedup.dfy` | the node replica and its listeners, the gRPC pool, the rate limit, the duplicate check |
| `sums.dfy` | sums over multisets and maps |

A task is a value: a row, a queue entry, a node-queue entry and a running goroutine each hold their own copy, and
an update overwrites the whole row. Times are integers in nanoseconds (reals, in seconds, in the Redis queue) and
are parameters, as are results of executors, choices of nodes, and replies of Redis and etcd.

## Where the code and its promises differ

- The design promises at most three retries by default
  (docs/features/2026-06-03-mini-bk-phase2/proposal.md:18). The code starts a task with `n` retries up to
  (3^(n+1) - 1) / 2 times, forty times by default: a failure report, a sweep timeout and a local completion each
  requeue their own copy. `DispatchBound.StartsAreBounded` is the bound, `BoundReached.BoundIsReached` reaches it
  for every `n` and every task that an idle scheduler can take, `BoundReached.PromiseHoldsIff` shows that the promise
  holds in every run exactly for tasks without retries and for tasks too large to start at all, and
  `RetryPromise.OrderlyRunsKeepThePromise` gives guards on a run under which `n + 1` is right.
- A delayed task in the Redis queue can be lost: a tick that pops it after the mover's LPUSH and puts it off before
  the ZREM has its delayed entry removed. `MoverRaces.LostIffReturnedInGap` is the exact condition,
  `MoverRaces.PutOffInGapIsLost` the run. A pop whose GET fails or finds an expired record, and a push that fails,
  lose their task as well; `MoverRaces.LostExactly` has all three ways.
- With etcd, a claim outlives the run it was made for, so that every retry of the task is given up until the claim
  expires: `Claims.EveryRetryIsDropped`.
- "At most N requests per minute" (internal/middleware/ratelimit.go:14) holds in every run only for N <= 1; up to
  2N - 1 requests pass: `RateLimits.PerMinutePromiseIff`, `RateLimits.MinuteBoundIsReached`.
- The backoff wraps around from the 34th retry on at one second (`Backoff.OneSecondIsIdealIff`). That needs a row
  with 34 or more retries, which nothing in the repository writes: NewTask sets three
  (internal/model/task.go:101), and `RetryDelays.ServiceDelaysAreIdeal` shows that with it every delay is right.
- A heartbeat that reads a node back from the table leaves the old timestamp in the cache, so that the next check
  can evict it: `Liveness.RecoveredNodeLeavesIff`.
- `Size` of the in-memory queue can miss a task that moves meanwhile: `DrainRace.SizeCanMiss`.
- The idempotency key has no separators, so that every job shares its key with other work:
  `Dedup.EveryJobCollides`.
- `RerunTask` within five minutes of the original is refused as a duplicate: `Submissions.EarlyRerunIsRefused`.
- A submission whose push fails is stored and reported as accepted, and is neither queued nor started until a failure
  report for it arrives: `NothingStranded.OnlyStoredIsStranded`, `NothingStranded.OnlyStoredNeverRuns`.
- The duplicate mark is set before the insert (internal/service/task_service.go:88-99), so a submission whose insert
  fails leaves its mark, and a second try within five minutes is refused although nothing was stored. `Dedup` counts
  it as accepted.
- The scheduler's limits bound the Running rows. The executor's slots bound what executes to the same number
  (`Executions.SlotsAreKept`), but with two slots or more not to the CPU and the memory: a row that is swept or
  cancelled gives up its share while its process works on. `Overcommit.ExecutionsFitIff` is the exact condition on a
  scheduler, `Overcommit.SweptTasksOvercommit` and `Overcommit.CancelledTasksOvercommit` are the runs, and
  `Executions.GuardedExecutionsFit` gives guards on a run under which everything fits.
- After `Close`, a caller that has dialled puts its connection into the pool: `ConnectionPool.CloseLeavesHeldOpen`.

The table lists the results and the methods with a loop, a branch or a relation worth stating. Every other method of
the classes is proved equal to the step function it carries out.

## Model

| member | source | states |
|---|---|---|
| Tasks.TransitionsRunOut | internal/model/task.go:41-57 | the transition table has no cycle: three transitions at most, three only through Pending and Running to a terminal status, none out of a terminal status; Pending only after Created, Running only after Pending, Success and Failed only after Running |
| TaskQueue.PopOrder | internal/queue/queue.go:11-26 | consecutive pops empty the priority bag first, never a higher priority after a lower one and none higher left behind, then serve the ready list oldest first; nothing is lost or popped twice |
| TaskQueue.PopsConserve | internal/queue/inmem.go:105-115 | what was popped and what is still ready are together what was ready |
| TaskQueue.BagEmptiesFirst | internal/queue/queue.go:11-26 | any sequence of pops takes the whole priority bag, and nothing else, before the first task of the ready list |
| InMemQueues.RootIsMax | internal/queue/inmem.go:19-43 | the root of a heap-ordered array has a priority no lower than any entry |
| InMemQueues.InMemQueue.Up | internal/queue/inmem.go:152-157 | sifting the last entry up restores the heap and keeps the entries |
| InMemQueues.InMemQueue.Down | internal/queue/inmem.go:105-108 | sifting the root down restores the heap over the first n entries, keeps the entries and leaves the rest alone |
| InMemQueues.InMemQueue.HeapPush | internal/queue/inmem.go:152-157 | the array stays a max-heap and gains exactly the pushed task |
| InMemQueues.InMemQueue.HeapPop | internal/queue/inmem.go:105-108 | returns a task of highest priority, removes it alone, and leaves a max-heap |
| InMemQueues.InMemQueue.PopInternal | internal/queue/inmem.go:105-115 | a legal answer of the abstract pop, and the abstract queue after it; nothing exactly when nothing is ready |
| InMemQueues.PickIsExact | internal/queue/inmem.go:87-96 | a drain pass picks exactly the items that are due (and keeps exactly the others), each once, in insertion order |
| InMemQueues.PicksSplit | internal/queue/inmem.go:87-96 | the two halves of a pass are together the whole delayed list |
| InMemQueues.InMemQueue.Drain | internal/queue/inmem.go:84-98 | one pass appends exactly the due tasks in order, keeps the rest in order, and is an abstract release |
| InMemQueues.InMemQueue.Size | internal/queue/inmem.go:176-186 | without concurrency, the number of copies the abstract queue holds |
| DrainRace.SizeMissesOnlyMoved | internal/queue/inmem.go:75-101 | a Size that runs step by step against the drain, without pushes and pops, falls short by exactly the tasks moved between its two reads, and never counts one twice |
| DrainRace.PassEndsExactly | internal/queue/inmem.go:87-97 | whatever Size did meanwhile, a pass ends with the due tasks appended in order and the others kept in order |
| DrainRace.SizeCanMiss | internal/queue/inmem.go:176-186 | an interleaving in which Size answers 0 while one task is queued |
| MoverRaces.LostExactly | internal/queue/redis.go:59-176 | for any number of movers, any failing commands, any expiring records and any interleaving of the mover's commands with whole pops and pushes: a step loses a task if and only if it is (1) a ZREM of its uid that takes effect, when the uid was popped since its latest LPUSH, no caller has the task any more and no other ready entry of it exists, or (2) a pop that takes its last entry and hands out nothing, when no caller has the task, or (3) a push of it that fails while nothing of it is queued |
| MoverRaces.LostIffReturnedInGap | internal/queue/redis.go:74-83 | with one mover, no failing command, no expired record and callers that push only what they have in hand: lost if and only if popped and put back into the delayed set between LPUSH and ZREM |
| MoverRaces.UnpoppedStaysQueued | internal/queue/redis.go:74-83 | in every run, also with failing commands, a delayed uid that no mover has between its LPUSH and its ZREM stays queued as long as no pop takes it |
| MoverRaces.DelayIsKept | internal/queue/redis.go:59-176 | over every run: a task pushed with a delay, and not so again since, is listed by a mover only when less than a second of the delay is left, and while delayed always from one second past it |
| MoverRaces.PutOffInGapIsLost | internal/queue/redis.go:75-83 | whenever a uid was just moved into an empty ready queue, a pop and a delayed push before the ZREM lose its task |
| MoverRaces.EveryTaskCanReachTheGap | internal/queue/redis.go:59-83 | every task can get there |
| MoverRaces.InterleavedRunsRefine | internal/queue/redis.go:59-176 | with one mover, no failures and callers that push only what they have in hand, ZRANGEBYSCORE, LPUSH and ZREM interleaved with pops and pushes: every run in which no task is put back into the delayed set in its gap is, step by step, a run of the abstract queue, a move taking effect at its LPUSH |
| RedisQueues.PopRefines | internal/queue/redis.go:121-151 | any answer of Pop is a legal abstract pop (highest priority by ZPOPMIN of the negated priority, else the oldest by BRPOP), and the abstract queue after it; nothing exactly when nothing is ready |
| RedisQueues.FailedPushIsAllOrNothing | internal/queue/redis.go:87-176 | a push whose SETEX or second command fails or loses its reply has queued the task or changed nothing that can be popped |
| RedisQueues.PushRefinesIff | internal/queue/redis.go:112-118 | Push is the abstract push if and only if it does not overwrite the record of an entry that is still queued with other contents |
| RedisQueues.PushPriorityRefinesIff | internal/queue/redis.go:155-164 | PushPriority is the abstract priority push if and only if the uid is not in the priority set and no record of a queued entry is overwritten with other contents |
| RedisQueues.PushDelayedRefinesIff | internal/queue/redis.go:167-176 | the same for PushDelayed and the delayed set |
| RedisQueues.MoveLosesNothing | internal/queue/redis.go:59-84 | a pass that runs alone: wherever it stops, and whichever commands fail or lose their reply, every delayed uid is still delayed with its score or is pending, and nothing else moves |
| RedisQueues.MoveRefinesRelease | internal/queue/redis.go:59-84 | a pass that runs alone and whose commands succeed is the abstract release of the due tasks, in the listed order |
| RedisQueues.TruncationIsUnderASecond | internal/queue/redis.go:60-176 | whatever is on the server: the score that PushDelayed stores is due less than a second early, and at most a second late |
| RedisQueues.TruncationCanBeEarly | internal/queue/redis.go:167-176 | what PushDelayed stores at 0.75 s for one second is due at 1.0 s |
| RedisQueues.RedisQueue.ZPopMin | internal/queue/redis.go:121-131 | removes a member of least score; nothing exactly when the set is empty |
| RedisQueues.RedisQueue.PushDelayed | internal/queue/redis.go:167-176 | stores the record and, as its score, the whole seconds of now plus the delay; a failing command leaves what `FailedPushIsAllOrNothing` says |
| RedisQueues.RedisQueue.ZRangeByScore | internal/queue/redis.go:62-66 | the uids whose score is between zero and the current whole second, each once |
| RedisQueues.RedisQueue.MoveDueDelayed | internal/queue/redis.go:59-84 | moves the due uids as `MoveLosesNothing` describes; does nothing when the query fails |
| Lifecycle.DispatchSucceeds | internal/scheduler/scheduler.go:333-473 | on a waiting copy no transition of dispatch is refused: the row becomes the running copy, one start is counted, and exactly one run is outstanding more (node queue, or executor when the node queue is full or no node is chosen) |
| Lifecycle.StepKeepsWellFormed | internal/scheduler/scheduler.go:209-609 | every handler keeps: 0 <= retryCount <= maxRetries and limits >= 0 on every copy, every queued copy Created or Pending, every copy of an executor Running |
| Lifecycle.RunKeepsWellFormed | internal/scheduler/scheduler.go:209-609 | so does every run |
| Lifecycle.CreateKeepsWellFormed | internal/service/task_service.go:97-117 | a submission joins the table and the queue without breaking it |
| Lifecycle.FailTaskKeepsWellFormed | internal/scheduler/scheduler.go:560-609 | failTask keeps it on any copy, also a stale one |
| Outcomes.LocalDoneOutcome | internal/scheduler/scheduler.go:408-609 | the end of a local run: without an error its row is the copy as Success with the result's exit code, output and finish time; with one, Pending with one more retry, queued and without finish time, while retries are left, else Failed with the error or the timeout text; the rest of the state stays |
| Outcomes.RemoteReportOutcome | internal/scheduler/scheduler.go:505-609 | a report does the same to the row of its uid when that is Running, or a failure finds retries left; otherwise rows and queue stay |
| Outcomes.SweepOutcome | internal/scheduler/scheduler.go:217-232 | the sweep leaves a running row alone if and only if it has no start, no timeout, or now is at most the start plus the timeout in seconds; otherwise the row is requeued with one more retry, or Failed |
| Outcomes.SweepQueues | internal/scheduler/scheduler.go:217-232 | what a sweep adds to the queue are exactly the rows that it makes Pending, each once |
| Outcomes.TickBeginOutcome | internal/scheduler/scheduler.go:209-232 | the same for the begin of a tick, over all rows of the table |
| Outcomes.TickOpensWithTheRest | internal/scheduler/scheduler.go:211-239 | a tick dispatches exactly when fewer rows are Running than there are slots, with exactly the CPU, memory and slots that the Running rows leave |
| Outcomes.DispatchOutcome | internal/scheduler/scheduler.go:333-473 | the row is Running at now on the chosen node; the run waits at the end of the node's queue when fewer than ten wait there, else it is local; other nodes' queues stay |
| Outcomes.PullsAreFifo | internal/scheduler/scheduler.go:420-502 | over every run: the agents of a node are handed exactly the tasks sent to it, in the order of dispatch, each once; the rest still wait |
| Outcomes.HandedInOrder | internal/scheduler/scheduler.go:420-502 | from the start on, what was handed out is a beginning of what was sent, at most ten tasks short of it |
| Outcomes.SubmissionsInOrder | internal/service/task_service.go:105-117 | after a submission with positive priority, every sequence of pops takes it together with the priority bag, before anything ready; one without comes right after all that is ready |
| DispatchBound.StartsAreBounded | internal/scheduler/scheduler.go:333-609 | whatever timeouts, duplicated, late or spurious reports and cancellations arrive, a task with n retries is started at most (3^(n+1) - 1) / 2 times |
| DispatchBound.RetriesAreBounded | internal/scheduler/scheduler.go:560-566 | every copy of a task, wherever it is, is one of its submission and uses no more retries than the task has |
| DispatchBound.SubmissionIsKept | internal/scheduler/scheduler.go:333-609 | in every run the row of a submitted task has the job, limits, timeout, priority, retry limit and interval of its submission |
| DispatchBound.FailTaskCharge | internal/scheduler/scheduler.go:560-609 | failing a copy adds no potential: a retry splits the weight of its copy between the row and the queue |
| DispatchBound.DispatchCharge | internal/scheduler/scheduler.go:333-473 | a start is paid for by the weight of the popped copy |
| DispatchBound.HandlersStartNothing | internal/scheduler/scheduler.go:209-609 | only the dispatch loop starts tasks |
| BoundReached.BoundIsReached | internal/scheduler/scheduler.go:505-609 | for every retry limit, and every task whose limits are within the scheduler's, there is a run with exactly (3^(n+1) - 1) / 2 starts |
| BoundReached.ChargeIsTheMost | internal/scheduler/scheduler.go:333-609 | from a state with one task, whose limits are within the scheduler's, the most starts that any run reaches are exactly its potential |
| BoundReached.PromiseHoldsIff | docs/features/2026-06-03-mini-bk-phase2/proposal.md:18 | for every submission: every run starts it at most n + 1 times if and only if n = 0 or an idle scheduler cannot take it (it needs more CPU or memory than there is, or there are no slots) |
| BoundReached.TooLargeNeverStarts | internal/scheduler/scheduler.go:235-258 | such a task is started in no run |
| RetryPromise.OrderlyRunsKeepThePromise | docs/features/2026-06-03-mini-bk-phase2/proposal.md:18 | at most n + 1 starts in every run without a remote failure report for a row that is not Running or that a local executor runs, and without a sweep timeout of a row that a local executor still runs |
| NothingStranded.NoTaskIsStranded | internal/scheduler/scheduler.go:333-609 | in every state of every run each Created or Pending row has a queue entry, each Running row has an outstanding run (executor, node queue or agent), and every queue entry can be dispatched |
| NothingStranded.OnlyStoredIsStranded | internal/service/task_service.go:106-117 | a submission whose push failed is a Created row without a queue entry, and the other tasks are as before |
| NothingStranded.OnlyStoredNeverRuns | internal/scheduler/scheduler.go:333-609 | from there on, in every run without a failure report for it, it is never queued and never started |
| NothingStranded.PoppedTaskIsStarted | internal/scheduler/scheduler.go:333-473 | in every reachable state a popped task that fits enters Running with a run outstanding |
| Ledger.RunningRowsFit | internal/scheduler/scheduler.go:209-270 | in every state of every run, also in the middle of a tick, the Running rows fit into the CPU, memory and concurrency limits |
| Executions.SlotsAreKept | internal/executor/executor.go:79-82 | in every run, however many local runs are outstanding, at most maxConcurrent tasks hold a slot, and each is an outstanding local run |
| Executions.GuardedExecutionsFit | internal/scheduler/scheduler.go:209-270 | in every run in which no row with an outstanding local run is swept, cancelled or reported and failures are reported only for Running rows: the tasks that execute, and even all local runs, fit into the CPU, memory and concurrency limits |
| Executions.StepKeepsSingle | internal/scheduler/scheduler.go:333-609 | every such step keeps: a task has one copy in the queue or in a local run, none in the queue while its row is Running, and the local copy is the row |
| Overcommit.ExecutionsFitIff | cmd/server/main.go:106-163 | what executes fits into a limit in every run, guarded or not, if and only if it is the limit of slots, or there is at most one slot, or the scheduler has none of the resource |
| Overcommit.ExecutionsAreCapped | internal/executor/executor.go:79-82 | in every run each executing task adds at most the scheduler's whole CPU and whole memory |
| Overcommit.SweptTasksOvercommit | internal/scheduler/scheduler.go:221-231 | with two slots, every task that fits, times out and has a retry can execute twice at the same time, with twice its limits: it is swept while its process works on, and its retry is started beside it |
| Overcommit.CancelledTasksOvercommit | internal/service/task_service.go:150-176 | with two slots, any two tasks that fit one by one can execute together: the row of the first is cancelled while its process works on |
| Ledger.SnapshotIsExact | internal/scheduler/scheduler.go:211-224 | what a tick adds up over the rows it read is what the Running rows use |
| FirstFit.TickPartitions | internal/scheduler/scheduler.go:241-258 | the tasks that were ready are exactly those dispatched, those put off and those still ready |
| FirstFit.NothingDeferredFits | internal/scheduler/scheduler.go:241-270 | nothing that was put off fits into what is left when the loop ends |
| FirstFit.TickPopsInOrder | internal/scheduler/scheduler.go:241-246 | the tick considers the priority bag first, highest first, then the ready list, oldest first |
| FirstFit.GreedyDecidesOnce | internal/scheduler/scheduler.go:247-257 | a task is dispatched exactly when it fits into what the tasks dispatched before it left |
| FirstFit.GreedyPays | internal/scheduler/scheduler.go:247-251 | the budget pays for exactly the dispatched tasks |
| Backoff.DelayIsIdeal | internal/scheduler/scheduler.go:574-577 | while interval * 10^9 * 2^k fits into 63 bits the delay is min(interval * 2^k s, 300 s) |
| Backoff.RawIsWrapped | internal/scheduler/scheduler.go:574 | below 64 retries the raw delay is the exact product, wrapped around once |
| Backoff.DelayIsIdealIff | internal/scheduler/scheduler.go:574-577 | the delay is the intended one if and only if the product fits into 63 bits or wraps around to five minutes or more; from 64 retries on, if and only if the interval is zero |
| Backoff.OneSecondIsIdealIff | internal/scheduler/scheduler.go:574-577 | at one second: if and only if k <= 33 or k is 37, 41, 42, 45, 47, 50, 51 or 53 |
| RetryDelays.EveryDelayIsIdeal | internal/scheduler/scheduler.go:563-577 | in every run every retry of every copy waits the intended time when the delay of the last retry fits into 63 bits |
| RetryDelays.ServiceDelaysAreIdeal | internal/model/task.go:91-107 | with the defaults (three retries, one second) the delays of every run are 2, 4 and 8 s |
| Backoff.DelayIsMonotone | internal/scheduler/scheduler.go:574-577 | in that range more retries never wait less |
| Backoff.TotalBelowCap | internal/scheduler/scheduler.go:574-577 | below the cap the first n retries wait interval * (2^(n+1) - 2) s in all |
| Backoff.OneSecondFits | internal/scheduler/scheduler.go:574-577 | at one second the range is k <= 33 |
| Backoff.LateRetriesAreImmediate | internal/scheduler/scheduler.go:574-577 | from the 64th retry on the delay is zero |
| Scheduling.TaskStore.GetRunningTasks | internal/store/task_store.go:177-204 | all Running rows, each once |
| Scheduling.Scheduler.Retry | internal/scheduler/scheduler.go:563-590 | requeues the copy as Pending with one more retry and the backoff delay, and writes the row |
| Scheduling.Scheduler.FailTask | internal/scheduler/scheduler.go:560-609 | the step failTask of the machine |
| Scheduling.Scheduler.CompleteTask | internal/scheduler/scheduler.go:523-556 | the step completeTask of the machine; a failure with retries left puts exactly the requeued copy into the delayed list, due after the backoff |
| Scheduling.Scheduler.LocalDone | internal/scheduler/scheduler.go:408-417 | the end of a local run leaves what `Outcomes.LocalDoneOutcome` says, is that step of the machine, and keeps its invariant |
| Scheduling.Scheduler.HandleRemoteResult | internal/scheduler/scheduler.go:505-520 | a report leaves what `Outcomes.RemoteReportOutcome` says, for any uid and any number of times, and is that step of the machine |
| Scheduling.Scheduler.GetNextTaskForNode | internal/scheduler/scheduler.go:487-502 | hands out the oldest waiting task of the node, takes exactly that one off its queue and records it as pulled; nothing when none waits |
| Scheduling.Scheduler.DispatchRemote | internal/scheduler/scheduler.go:420-473 | the remote half: queued for the node unless ten tasks wait there, else run locally |
| Scheduling.Scheduler.Dispatch | internal/scheduler/scheduler.go:333-377 | the dispatch step, to a least used one of the cached nodes that are eligible for the task, or locally when there is none |
| Scheduling.Scheduler.Sweep | internal/scheduler/scheduler.go:217-232 | adds up the limits of the running tasks and fails those past their deadline, as `Outcomes.SweepOutcome` and `Outcomes.SweepQueues` describe |
| Scheduling.Scheduler.Place | internal/scheduler/scheduler.go:247-256 | a popped task that fits is dispatched and paid for; one that does not is due again in one second and leaves the budget alone |
| Scheduling.Scheduler.PopAndPlace | internal/scheduler/scheduler.go:241-258 | one iteration is one step of the machine on a legal pop; no pop exactly when nothing is ready |
| Scheduling.Scheduler.DispatchLoop | internal/scheduler/scheduler.go:241-258 | the loop terminates, is a run of the machine, follows greedy first fit, and stops only without slots or ready tasks |
| Scheduling.Scheduler.BeginTick | internal/scheduler/scheduler.go:209-239 | opens the tick with the budget that is free |
| Scheduling.Scheduler.Tick | internal/scheduler/scheduler.go:209-258 | a tick is a run of the machine that begins, pops in order by first fit, and ends; the invariant holds again |
| Nodes.SplitLabelJoins | internal/nodemanager/manager.go:279-281 | splitting at the first "=" loses nothing, and gives one part exactly when there is none |
| Nodes.SplitLoopIsRedundant | internal/nodemanager/manager.go:299-313 | whatever the split-based inner loop finds, the direct label test has found, for all strings |
| NodeManagement.NodeManager.FindByLabels | internal/nodemanager/manager.go:284-321 | exactly the cached nodes that are schedulable and have, for each selector (k, v), a label k=v, v or k; each once |
| NodeManagement.NodeManager.MatchOne | internal/nodemanager/manager.go:289-317 | that rule for one node |
| NodeManagement.NodeManager.CheckOfflineNodes | internal/nodemanager/manager.go:257-271 | exactly the nodes last heard more than 30 s ago leave the cache and are written Offline |
| NodeManagement.NodeManager.ReceiveHeartbeat | internal/nodemanager/manager.go:93-172 | a cached node takes over usage, version and time and is Online; an unknown one is cached as the table has it; the table takes over time and usage, zero without one |
| NodeSelection.SelectNode | internal/scheduler/scheduler.go:276-307 | a least used node among all that match and fit; an error exactly when there is none; no node without a manager; for non-negative totals and usage, fitting means that each limit is zero or fits beside the used share of the CPUs, rounded down, and the memory in use |
| NodeSelection.EligibleIffRoom | internal/scheduler/scheduler.go:288-296 | that is exactly what makes a node eligible |
| NodeSelection.SortByUsage | internal/scheduler/scheduler.go:301-304 | a permutation in ascending order of CPU usage |
| Liveness.SteadyNodeStays | internal/nodemanager/manager.go:93-271 | a cached node heard at least every 30 s is never evicted, and its timestamp is that of its last heartbeat |
| Liveness.SilentNodeLeaves | internal/nodemanager/manager.go:177-271 | a node silent since t has left the cache and is Offline later than t + 35 s, with checks at most 5 s apart |
| Liveness.SilentNodeStaysUntil | internal/nodemanager/manager.go:257-271 | and stays as long as no check comes later than t + 30 s |
| Liveness.SilentLeavesIff | internal/nodemanager/manager.go:257-271 | a silent node leaves if and only if some check finds its cached timestamp more than 30 s old |
| Liveness.NeverBeatenNeverEvicted | internal/nodemanager/manager.go:261 | a node that never sent a heartbeat is never evicted |
| Liveness.RecoveredNodeLeavesIff | internal/nodemanager/manager.go:155-172 | a node read back by its heartbeat keeps the table's old timestamp in the cache; silent afterwards, it leaves if and only if a check comes more than 30 s after that old timestamp |
| Submissions.TaskService.BuildTask | internal/service/task_service.go:59-83 | field by field: overrides that are positive or present, else the defaults: /tmp, 300 s, three retries, one second, no limits |
| Submissions.TaskService.SetMark | internal/service/task_service.go:88-95 | succeeds exactly when no earlier submission with the key was accepted in the last five minutes |
| Submissions.TaskService.CreateTask | internal/service/task_service.go:59-120 | refused exactly when Redis answers and the key is marked, or the insert fails; otherwise the task joins the table and, when it can be pushed, the priority bag if its priority is positive and the end of the ready list if not |
| Submissions.TaskService.CancelTask | internal/service/task_service.go:150-176 | the cancel step; succeeds exactly for a task that has not ended and whose cancellation could be published; the row is Canceled even when it could not |
| Submissions.TaskService.RerunTask | internal/service/task_service.go:179-198 | submits the request of an existing task once more, under a new uid |
| Submissions.RerunRepeatsTheRequest | internal/service/task_service.go:185-197 | in every run, re-running gives the task that the original request would give, whatever became of the original |
| Submissions.EarlyRerunIsRefused | internal/service/task_service.go:85-95 | in every run, a re-run less than five minutes after its original is refused |
| Dedup.PreimageIsUnique | internal/model/task.go:110-124 | the same command, workdir and environment hash the same text, in whatever order the map is enumerated |
| Dedup.SortedListingIsUnique | internal/model/task.go:114-119 | a set of keys has one sorted listing |
| Dedup.Preimage | internal/model/task.go:110-124 | computes that text |
| Dedup.EveryJobCollides | internal/model/task.go:110-124 | for every job there is different work with the same text |
| Dedup.SameShapeSeparates | internal/model/task.go:110-124 | among jobs whose command, working directory, keys and values have pairwise equal lengths, the text is the same if and only if the work is |
| Dedup.RefusedIffRecent | internal/service/task_service.go:86-95 | a submission is refused if and only if one with the same key was accepted less than five minutes before |
| Dedup.SameWorkIsStoredOnce | internal/service/task_service.go:86-99 | the same work never reaches the store twice within five minutes |
| Claims.ClaimsExclude | internal/scheduler/scheduler.go:312-343 | for any number of schedulers and any interleaving a task enters Running at most once more often than its claims expired; while none has, at most once, by the scheduler that the claim names |
| Claims.EveryRetryIsDropped | internal/scheduler/scheduler.go:312-343 | in every run, once a task has been started and while no claim on it has expired, every popped copy of it is given up |
| Claims.UncontestedIsTickPop | internal/scheduler/scheduler.go:247-377 | a popped task that fits and that nobody has claimed: pop, claim and start are together the step of a scheduler alone |
| Claims.PutOffIsTickPop | internal/scheduler/scheduler.go:252-256 | so is putting off a task that does not fit |
| Claims.RetryIsLost | internal/scheduler/scheduler.go:317-320 | such a run exists: a failed task with retries left is Pending and no queue, scheduler or agent holds it |
| ClusterStranded.WhereEveryTaskIs | internal/scheduler/scheduler.go:209-609 | for any number of schedulers: every Running row has a run somewhere, and every Created or Pending row has a copy in the queue or in a dispatch, unless a popped copy was given up, which happens only where a claim stands, has expired, or returned an error |
| ClusterStranded.StepKeepsAccountedFor | internal/scheduler/scheduler.go:209-609 | every step keeps it |
| Claims.StepKeepsExclusive | internal/scheduler/scheduler.go:312-377 | every step keeps: starts, and won claims not yet used, are covered by expired claims and the standing one |
| Discovery.NodeKeyRoundTrip | internal/discovery/discovery.go:154-161 | the node id is read back from its registration key if and only if it has no slash |
| Discovery.ReplicaIsExact | internal/discovery/discovery.go:51-105 | loaded at a revision and fed the changes up to now, the replica holds exactly the registry of now, by node id, given one key per node |
| Discovery.RegisteredKeysAreOnePerNode | internal/nodemanager/manager.go:274-276 | registration keys of ids without a slash satisfy that |
| Discovery.MirroredIffOneKeyPerNode | internal/discovery/discovery.go:84-100 | every history over a set of keys is mirrored if and only if no two of the keys are read as the same node |
| Discovery.TwoKeysBreakTheReplica | internal/discovery/discovery.go:95-99 | for any two keys of one node: put both, delete one, and the replica has lost a node that is there |
| Discovery.UnloadedReplicaIsPartial | internal/discovery/discovery.go:66-76 | when the load fails the replica is a part of the registry: what was put since the watch began |
| Discovery.NothingDroppedMeansEverything | internal/discovery/discovery.go:140-151 | a listener has been given all events exactly when none was dropped |
| Discovery.SubscribersFollow | internal/discovery/discovery.go:51-151 | over whole runs, with subscribers and consumers between the events: the cache mirrors the registry; a listener from before the first event has dropped nothing if and only if it had room at every event, and then its events rebuild the cache; in any case they are an in-order part of all events |
| Discovery.DroppedIffNoRoom | internal/discovery/discovery.go:127-151 | for any listener and any stretch of a run: nothing more is dropped if and only if fewer than a hundred events are unread whenever one is sent; listeners and their subscriptions stay |
| Discovery.NodesOfSteps | internal/discovery/discovery.go:51-151 | subscribers and consumers do not disturb the cache |
| Discovery.ServiceDiscovery.Emit | internal/discovery/discovery.go:140-151 | every listener gets the event unless it has a hundred unread |
| Discovery.ServiceDiscovery.HandleChange | internal/discovery/discovery.go:84-100 | updates the replica and emits the event: added, updated when the node was known, or removed |
| Discovery.ServiceDiscovery.StartWatching | internal/discovery/discovery.go:51-105 | load and watch, alone, are a run of the steps and mirror the registry |
| ConnectionPool.PoolIsExact | internal/grpcclient/pool.go:37-86 | for every interleaving: equal keys in both maps; open connections = pooled + held between dial and insert-or-close; callers for a node with no Remove or Close between them got the same client, and its connection is open until one |
| ConnectionPool.StepKeepsSound | internal/grpcclient/pool.go:37-86 | every step keeps it |
| ConnectionPool.CloseLeavesHeldOpen | internal/grpcclient/pool.go:78-86 | Close leaves exactly the connections that callers hold open, and one of them can enter the closed pool |
| ConnectionPool.AloneDialsOnlyOnMiss | internal/grpcclient/pool.go:37-64 | a call that no other overlaps costs no connection on a hit and one on a miss |
| ConnectionPool.Pool.GetOrCreate | internal/grpcclient/pool.go:37-64 | the pooled client, or an error exactly when there is none and the dial fails |
| ConnectionPool.Pool.RemoveNode | internal/grpcclient/pool.go:66-75 | takes exactly the node out of both maps and closes its connection |
| ConnectionPool.Pool.CloseAll | internal/grpcclient/pool.go:78-86 | closes exactly the pooled connections |
| ConnectionPool.Pool.Len | internal/grpcclient/pool.go:89-93 | the open connections that are not held |
| RateLimits.WindowIsBounded | internal/middleware/ratelimit.go:23-51 | for every interleaving, with EXPIRE late or lost: each lifetime of the key admits at most N, lifetimes begin a minute or more apart, and T > 0 admits at most (floor((T-1)/60s) + 2) * N - 1, or nothing when N <= 0 |
| RateLimits.MinuteBoundIsReached | internal/middleware/ratelimit.go:23-51 | for every N >= 2 a run admits 2N - 1, the most there is, within one minute |
| RateLimits.PerMinutePromiseIff | internal/middleware/ratelimit.go:14 | every run keeps every minute to at most N if and only if N <= 1 |
| RateLimits.LostExpiryBlocks | internal/middleware/ratelimit.go:33-36 | after a lost EXPIRE only what is left of the quota is ever admitted |
| RateLimits.StepKeepsGood | internal/middleware/ratelimit.go:26-51 | every step keeps the counts, the spacing and the order of the lifetimes |
| RateLimits.Limiter.Handle | internal/middleware/ratelimit.go:17-52 | passes uncounted when disabled or Redis fails; otherwise admitted exactly up to the limit, with a Remaining header that is never negative; no other address changes |

## Left out

- Interleaving inside a handler: each handler of the scheduler and the service is one step (the iterations of a
  tick's dispatch loop are separate steps); its read of a row and its write are not split.
- Submissions.TaskService.CreateTask: servers answer or fail as a whole; store and queue errors of the scheduler are
  left out.
- Scheduling.Scheduler.Tick: nothing else runs between its iterations; runs with other handlers in between are
  those of `Lifecycle`.
- Scheduling.Scheduler.DispatchLoop: as for `Tick`, and nothing comes due during the loop.
- Lifecycle.StepKeepsWellFormed: the cancel functions and the cancel message are not modelled, so a cancelled run
  ends with any result at any time; an agent that never reports keeps its task outstanding.
- RetryPromise.OrderlyRunsKeepThePromise: the guards on a run are sufficient; one disorderly event need not lead to
  an extra start. The exact condition on a task is `BoundReached.PromiseHoldsIff`.
- Claims.ClaimsExclude: leases are represented by claims that may expire at any step; the schedulers share the
  queue, as with Redis.
- Liveness.SilentNodeLeaves: covers the mode without etcd; leases, the node watcher and markOffline are left out.
- InMemQueues.InMemQueue.PopInternal: the polling and the timeout of Pop around it are left out.
- RedisQueues.PopRefines: the commands of one pop are one step and do not fail, and records have not expired
  (`PopAnswersNoneIff` covers expired ones, `MoverRaces` both); ties of ZPOPMIN and of ZRANGEBYSCORE are broken arbitrarily, which
  covers the lexicographic order of Redis; JSON is not modelled.
- RedisQueues.MoveLosesNothing: for a pass that nothing else interleaves with; `MoverRaces` has the rest.
- RedisQueues.MoveRefinesRelease: for a pass that nothing else interleaves with.
- RedisQueues.RedisQueue.MoveDueDelayed: the object runs a pass alone; the interleaved commands are the steps of
  `MoverRaces`.
- MoverRaces.LostExactly: only the mover is split into its commands; a pop, and a push, is one step whatever its
  outcome.
- MoverRaces.InterleavedRunsRefine: one mover; commands that succeed and records that have not expired; the commands
  of a pop or a push are one step.
- Executions.GuardedExecutionsFit: the guards on a run are sufficient; the exact condition on a scheduler is
  `Overcommit.ExecutionsFitIff`. Executions on the nodes of agents are not counted.
- Overcommit.SweptTasksOvercommit: the executor's own deadline, which starts when a run takes its slot and so never
  before that of the row, is not timed; a run holds its slot until a step frees it.
- Discovery.ReplicaIsExact: compaction and a broken watch channel are left out.
- Discovery.ServiceDiscovery.HandleChange: the update of the map and the emission are one step.
- RateLimits.WindowIsBounded: requests that pass because INCR failed are not counted.
- NodeSelection.SelectNode: the CPU share is computed with reals instead of floating point; the sort is an
  insertion sort, and equal usages may be ordered differently; for negative totals or usage only `Eligible` says what
  fits.
- Dedup.Preimage: SHA-256 is an arbitrary function of the text, and the sort is an insertion sort.
- Backoff.DelayIsIdeal: the only place where 64-bit wrap-around is modelled; task timeouts and sums of limits are
  unbounded integers.
- Leader election: the campaign never succeeds in the code, so nothing about ticks of a leader is claimed.
- The fields id, pid, created_at and updated_at, daily statistics and logs: no decision depends on them.
- HTTP, gRPC and SSE handlers, configuration, the web interface, SQL text and process execution: input, output and
  thin wrappers.
