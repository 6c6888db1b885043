# MoLink: scheduling and pipeline execution, verified

MoLink serves one language model from several machines. The layers are split over nodes, and
several micro-batches are kept in flight so that the network's latency is hidden. This project
models the parts that must fit together for that to be right, and proves that they do.

* **On-the-fly scheduler** (`SchedulerSpec`, `Scheduler`, `SchedulerProofs`, `SchedulerBudget`,
  `SchedulerHistory`, `SchedulerOutcome`). The class rewrites its three queues in place, parks
  requests that other micro-batches hold, preempts from the tail and spends a budget. It is
  proved equal to functions on values, and the properties are proved about those. vLLM's block
  manager, token counting, preemption, output callback and clock are an arbitrary oracle (`Env`)
  whose answers may change during a step. `SchedulerHistory` accounts for every scan group by
  group from the answers given at that moment, and shows that the account admits no other
  result; `SchedulerOutcome` tells from it where each group ends up.
* **Engine loop** (`EngineRuns`, `Engine`, `BatchNumber`, `BudgetOverrun`). Up to ten step tasks
  share the scheduler. A run is any sequence of schedules, completions, arrivals and loop passes;
  a schedule is one event because the code does not await in it. Schedules by vLLM's default path
  are events under a contract: they compose the three scans in some way, batch what the scans
  choose, and put no request in two places.
* **Pipeline protocol** (`PipelineProtocol`, `CommService`, `JointRuns`, `SharedEngine`,
  `OrderedEngine`). All tasks and messages in flight form one bag, so anything may overtake
  anything. The service's handlers are proved to change their queues exactly as the events of the
  bag do. Stages run by the v0 flags, which follow from the ranges. The answer to a request is
  what its embedding becomes in layer 0, layer 1 and so on, normalised (`LayerSplit.IsAnswer`).
  A launch needs the engine to be free: `JointRuns` runs
  engine and pipeline together and proves that v0 always launches so. v1 sends every batch to
  engine 0 unless told otherwise (MoLink-main/molinkv1/executor.py:366); `SharedEngine` proves that
  launches on a free engine are then still safe, and `OrderedEngine` which other launches are.
* **Layer split and topology** (`LayerSplit`, `Topology`, `ParallelState`). Layers, embedding and
  norm are arbitrary functions.
* **Smaller cores**: the v1 worker's tensor slot (`WorkerSlot`), the placeholder ledger of the
  asynchronous scheduler (`PlaceholderLedger`), registration in the hash table (`Dht`), and the
  tensor index maps (`IndexMaps`).

What the code does that its comments or options do not say, kept as it is in the model:

* `_schedule_running` never looks at `max_num_seqs`; `SchedulerBudget.AssertionsHoldWhenRoom` and
  `AssertionsFailWithoutRoom` give the exact condition under which the assertions at
  MoLink-main/molink/core/scheduler.py:92-94 are safe. When one fails, only the task ends: the
  loop goes on with the chosen ids in `requests_on_fly` for good (`EngineRuns.RunsKeepExclusion`
  and `ExactIffNoneStranded`) and with the chosen groups in no queue
  (`SchedulerProofs.FailingStepDrops`).
* Beyond the largest profiled batch size the latency estimate is that of a single request
  (`BatchNumber.OutsideRange`, `BeyondRange`).
* The stub refresh of the v0 head indexes the new list by the old one's length and fails when the
  new list is a proper prefix (`CommService.HeadServer.RefreshStubs`).
* `update_molink_stage_info` is documented as something to call once the number of layers is
  known, but nothing calls it, and both initialisations omit that number. A v1 chain that tiles
  the model then computes it if and only if the last node's end is given as -1
  (`ParallelState.GuessedChainComputesWhole`, with `ExplicitHalves` as the instance); node by
  node, `ParallelState.GuessIsRight` says when the flag is right.
* `init_molink_parallel_state` documents the end layer as exclusive, and the v0 option names the
  last layer served; `LayerSplit.ServingRanges` is the v0 reading.
* Registration in the hash table is read, append, write without any protection
  (`Dht.OverlapLoses`); it heals because every node refreshes again and again.

`dafny verify dfyconfig.toml` checks everything.

## Model

| member | source | states |
|---|---|---|
| SchedulerProofs.StepConserves | MoLink-main/molink/core/scheduler.py:54-154 | the groups waiting, running and swapped before a chunked step are, as a multiset, those in the three queues after it plus the reported ignored or infeasible ones, the async-stopped ones and the victims found finished |
| SchedulerProofs.FailingStepDrops | MoLink-main/molink/core/scheduler.py:92-97 | a step whose budget assertion fails loses the groups it had chosen, preempted or swapped out: they are in no queue any more, all others are in the queue they were in or removed |
| SchedulerProofs.StepMarksBatch | MoLink-main/molink/core/scheduler.py:217-222 | the ids in the batch were all free before the step, are pairwise different, and are exactly what the step adds to `requests_on_fly` |
| SchedulerProofs.RunScanShape | MoLink-main/molink/core/scheduler.py:199-338 | the running scan only ever cuts its queue into scanned groups (front), untouched groups and victims (back, read backwards) |
| SchedulerProofs.RunningKeepsOrder | MoLink-main/molink/core/scheduler.py:335-338 | the running queue after the scan is a subsequence of the old one, in its old order |
| SchedulerProofs.PreemptedKeepOrder | MoLink-main/molink/core/scheduler.py:290-297 | recomputed victims reach the front of the waiting queue in the order in which they were running |
| SchedulerProofs.VictimsOutsideBatch | MoLink-main/molink/core/scheduler.py:263-267 | a group the scan has already taken, so in particular one in the batch, is never chosen as a victim |
| SchedulerProofs.SelfEvictionIsLast | MoLink-main/molink/core/scheduler.py:268-274 | the group being scheduled is evicted only when no group is left behind it, as the last victim, and the scan ends there |
| SchedulerProofs.RunScanConserves | MoLink-main/molink/core/scheduler.py:199-343 | each group of the running queue is counted once among the batch, the kept queue, the stopped list and the three kinds of victims |
| SchedulerProofs.RunScanMarks | MoLink-main/molink/core/scheduler.py:329-331 | the running scan marks exactly the groups it schedules, none of which was marked |
| SchedulerProofs.QueueScanOrder | MoLink-main/molink/core/scheduler.py:641-647 | a swapped or waiting scan leaves leftovers, then parked groups, then the unscanned suffix, each in arrival order, and every other scanned group is scheduled and marked or rejected |
| SchedulerProofs.QueueScanConserves | MoLink-main/molink/core/scheduler.py:363-452 | each group of the scanned queue is counted once among the queue left, the batch and the rejected ones |
| SchedulerProofs.QueueScanMarks | MoLink-main/molink/core/scheduler.py:482-647 | a swapped or waiting scan marks exactly the groups it schedules, none of which was marked |
| SchedulerProofs.BatchIsRunning | MoLink-main/molink/core/scheduler.py:96-118 | the new running queue holds what the running scan left there and every group of the batch, once each |
| SchedulerHistory.RunScanExplained | MoLink-main/molink/core/scheduler.py:199-333 | every running scan has an account by turns: it ends in front of a group exactly at a limit or without tokens for it; a group is parked exactly if on the fly, stopped exactly if too long, and else chosen at the first question that finds a slot, evicting from the tail one group per question before it; a victim is freed, preempted or swapped out by the answers at its own question; marks, adapters, clock and charges follow |
| SchedulerHistory.OneRunAccount | MoLink-main/molink/core/scheduler.py:199-333 | there is only one such account from a given start, so it determines what the scan does |
| SchedulerHistory.RoomExplained | MoLink-main/molink/core/scheduler.py:252-300 | the search for room finds no slot at any question before its last, succeeds exactly if a slot is free there, and has by then evicted the tail backwards, the group itself last; nothing it releases had been charged |
| SchedulerHistory.QueueScanExplained | MoLink-main/molink/core/scheduler.py:367-639 | every swapped or waiting scan has an account group by group: it ends in front of a group exactly for a named cause (delay, limit, memory short for now, budget spent or exceeded, no tokens); a group is rejected exactly if its prompt exceeds the limit or memory will never do, left over exactly if its partial prefill or adapter has no place, parked exactly if on the fly, and else chosen with the chunk and charges stated |
| SchedulerHistory.OneAccount | MoLink-main/molink/core/scheduler.py:367-639 | there is only one such account from a given start |
| SchedulerHistory.StepExplained | MoLink-main/molink/core/scheduler.py:54-94 | every chunked step has such accounts in sequence: the swapped queue is scanned exactly if no victim was preempted or swapped out, the waiting queue exactly if token budget is left, and the assertions compare the final charges |
| SchedulerOutcome.VictimGoes | MoLink-main/molink/core/scheduler.py:263-297 | the i-th victim of a search leaves the queues exactly if async processing is on and finishes it; otherwise it is in the front part of the new waiting queue exactly if it is to be recomputed, and at the end of the new swapped queue exactly if not |
| SchedulerOutcome.WaitingGoes | MoLink-main/molink/core/scheduler.py:492-600 | a waiting group the scan has come to is reported ignored exactly if it is free, its partial prefill has a place, and its prompt exceeds the limit or `can_allocate` answers NEVER; it is in the batch exactly if nothing is in its way, and stays in the queue exactly if it is on the fly or its partial prefill or adapter has no place |
| SchedulerOutcome.SwappedGoes | MoLink-main/molink/core/scheduler.py:367-425 | a swapped group the scan has come to is reported infeasible exactly if it is free and `can_swap_in` answers NEVER, is in the batch exactly if memory and adapters have room, and else stays |
| SchedulerOutcome.NoSwapInAfterPreemption | MoLink-main/molink/core/scheduler.py:79-83 | after a preemption the swapped queue is left as it was and none of its groups is in the batch or reported |
| SchedulerOutcome.NoPrefillWithoutBudget | MoLink-main/molink/core/scheduler.py:471-478 | with the token budget spent, the waiting queue is left as it was and none of its groups is in the batch or reported |
| SchedulerOutcome.FirstSwappedIn | MoLink-main/molink/core/scheduler.py:79-83 | the first swapped group is swapped in if and only if nothing was preempted, it is free, memory and adapters have room for it, and it fits the budget |
| SchedulerOutcome.FirstWaitingIn | MoLink-main/molink/core/scheduler.py:471-600 | the first waiting group is scheduled if and only if the budget is not spent, the delay has passed, the limits are not zero, and it is free, admissible and fits memory, adapters and budget |
| SchedulerOutcome.MergedOrder | MoLink-main/molink/core/scheduler.py:96-127 | the batch lists the prefills of waiting, running and swapped groups and then the running and swapped decodes, and the new running queue the kept groups, the swapped decodes and prefills, the running decodes, the running prefills that finish their prompt, those that do not, and the new requests, each part in the order of its queue |
| SchedulerOutcome.ReportedCounts | MoLink-main/molink/core/scheduler.py:151-153 | the step reports the size of the running queue it leaves and, as preempted, the victims that were not found finished |
| SchedulerBudget.RunScanLimits | MoLink-main/molink/core/scheduler.py:199-206 | in either mode at most `schedule_limit` groups are taken from the running queue, and in chunked mode at most the decode token limit, rounded up |
| SchedulerBudget.RunScanCharges | MoLink-main/molink/core/scheduler.py:317-325 | under the token contract the running scan never overdraws the token budget, charges one sequence per scheduled group and the chunk of each scheduled group |
| SchedulerBudget.QueueScanCharges | MoLink-main/molink/core/scheduler.py:417-443 | the scans that ask before they charge keep a sound budget sound, and a sequence count that held holds |
| SchedulerBudget.ReportedTokens | MoLink-main/molink/core/scheduler.py:129-143 | the reported `num_batched_tokens` is the sum of the chunk sizes of the batch |
| SchedulerBudget.PrefillsFirst | MoLink-main/molink/core/scheduler.py:121-129 | the first `num_prefill_groups` entries of the batch are prefills and all others decodes |
| SchedulerBudget.AssertionsHoldWhenRoom | MoLink-main/molink/core/scheduler.py:92-94 | both budget assertions hold if the most groups the running scan could take is at most `max_num_seqs` |
| SchedulerBudget.AssertionsFailWithoutRoom | MoLink-main/molink/core/scheduler.py:92-94 | if it is larger, there is an environment meeting the token contract in which an assertion fails: together with the row above, an exact condition |
| SchedulerBudget.LimitWithinSeqs | MoLink-main/molink/core/scheduler.py:37-38 | `schedule_limit` at most `max_num_seqs` is enough for both assertions |
| Scheduler.PushBack | MoLink-main/molink/core/scheduler.py:335-338 | popping the parked queue from the right and pushing left puts it in front in its own order |
| Scheduler.ExtendLeft | MoLink-main/molink/core/scheduler.py:646-647 | `extendleft` reverses what it is given |
| Scheduler.MolinkScheduler.FindRoom | MoLink-main/molink/core/scheduler.py:252-300 | the inner preemption loop evicts exactly the victims of `MakeRoom`, and files each as preempted, swapped out or freed |
| Scheduler.MolinkScheduler.StepRunning | MoLink-main/molink/core/scheduler.py:199-333 | one pass of the running loop does what `JudgeRunning` says to queue, marks, budget and lists |
| Scheduler.MolinkScheduler.ScheduleRunning | MoLink-main/molink/core/scheduler.py:156-343 | the loop in place equals `RunScan`: lists, queue, marks and budget |
| Scheduler.MolinkScheduler.ScheduleSwapped | MoLink-main/molink/core/scheduler.py:347-462 | the loop in place equals the swapped scan |
| Scheduler.MolinkScheduler.SchedulePrefills | MoLink-main/molink/core/scheduler.py:464-656 | the loop in place equals the waiting scan |
| Scheduler.MolinkScheduler.MergeQueues | MoLink-main/molink/core/scheduler.py:96-120 | the queues are rebuilt as `NewQueues` says, running groups first, finishing prefills before others |
| Scheduler.MolinkScheduler.ScheduleChunkedPrefill | MoLink-main/molink/core/scheduler.py:54-154 | the step fails with nothing changed while stopped groups wait, and otherwise does what the next row says |
| Scheduler.MolinkScheduler.ScanAndMerge | MoLink-main/molink/core/scheduler.py:71-154 | queues, marks, clock, stopped list and output equal the three scans and the merge, or what the scans left exactly when the budget was not held |
| Scheduler.MolinkScheduler.MarkSeqAsScheduleFree | MoLink-main/molink/core/scheduler.py:44-46 | frees the one id, and does nothing for an id that is not marked |
| EngineRuns.RunsKeepExclusion | MoLink-main/molink/engine/molink_engine.py:92-98 | in every state of every interleaving of schedules of either path, failed or not, completions, arrivals and loop passes, micro-batches in flight share no request id, and `requests_on_fly` is exactly their union and, disjoint from it, the ids that failed schedules had chosen |
| EngineRuns.CompositionMarks | MoLink-main/molink/core/scheduler.py:48-52 | the three scans in any order, and any of them, mark together exactly what they choose, each request once and none that was marked, so the row above also holds for schedules by the default path |
| EngineRuns.ExactIffNoneStranded | MoLink-main/molink/engine/molink_engine.py:240-243 | the set is exactly the union of the batches in flight if and only if no failed schedule had chosen a group |
| EngineRuns.ExactIffNoFailure | MoLink-main/molink/core/scheduler.py:92-94 | for chunked single-sequence schedules under the token contract, that is if and only if no schedule failed |
| EngineRuns.ExactWithRoom | MoLink-main/molink/core/scheduler.py:37-38 | it holds in every run in which, before each schedule, no more groups could be chosen than `max_num_seqs` |
| EngineRuns.ExactWithLimit | MoLink-main/molink/core/scheduler.py:37-38 | it holds in every run in which each schedule limit is at most `max_num_seqs` |
| EngineRuns.RoomNeeded | MoLink-main/molink/core/scheduler.py:92-94 | where more could be chosen, an environment within the contract makes the next schedule fail and strand ids |
| BudgetOverrun.TwoContextsOverrun | MoLink-main/molink/core/scheduler.py:92-94 | an instance reached by schedules alone: with `max_num_seqs` 1, two contexts take one group each, both complete, and a next schedule within the contract fails and strands ids |
| EngineRuns.FailureStrands | MoLink-main/molink/core/scheduler.py:329-331 | under the contract a schedule that fails has always chosen a group |
| EngineRuns.StepKeeps | MoLink-main/molink/engine/molink_engine.py:221-243 | every single event keeps that invariant, the task-list invariant and the uniqueness of queued ids; only a failed schedule strands ids |
| EngineRuns.InFlightVictimStaysMarked | MoLink-main/molink/core/scheduler.py:263-297 | a request in flight, even if it is evicted from the tail by another context's step, stays marked and in its own batch, and is in no other |
| EngineRuns.NothingHeldBack | MoLink-main/molink/engine/molink_engine.py:240-243 | with no batch in flight exactly the stranded ids are marked: none if and only if no failed schedule had chosen a group |
| EngineRuns.PassKeeps | MoLink-main/molink/engine/molink_engine.py:517-540 | one pass of the engine loop keeps the two task lists of equal length and within `max_batch_num`, and every live task is the one listed for its context |
| EngineRuns.PassServes | MoLink-main/molink/engine/molink_engine.py:490-538 | a pass takes over the new batch count exactly if nothing was in progress or the task of context 0 was over, and keeps the old one otherwise; afterwards every context below the count has a live task, a live task is never replaced, and contexts beyond the count are flagged idle and keep what they have |
| EngineRuns.OneBatchNum | MoLink-main/molink/engine/molink_engine.py:506-538 | a pass computes the batch count at most once |
| EngineRuns.OneTaskPerContext | MoLink-main/molink/engine/molink_engine.py:524-532 | in every state of every run two live tasks never share a context, so at most ten batches are in flight, one a context |
| Engine.MolinkEngine.RunPass | MoLink-main/molink/engine/molink_engine.py:484-540 | one iteration of the loop in place, computing the batch count where the loop does, equals `Pass` with that count; whenever it computes the count, the scheduler's limits are the ones computed with it, and otherwise count and limits stay |
| Engine.MolinkEngine.PreparePass | MoLink-main/molink/engine/molink_engine.py:484-522 | the two ways of extending the task lists equal `Prepare` with the count computed when nothing is in progress |
| Engine.MolinkEngine.VisitContext | MoLink-main/molink/engine/molink_engine.py:524-538 | the visit of one index equals `Visit`; at index 0 with its task over, the count and the scheduler's limits are computed again, and otherwise the limits stay |
| Engine.MolinkEngine.MarkSeqAsScheduleFree | MoLink-main/molink/engine/molink_engine.py:240-243 | the loop frees exactly the ids of the batch |
| Engine.MolinkEngine.StepSchedule | MoLink-main/molink/engine/molink_engine.py:92-118 | the call of the scheduler in place is the schedule event: refused, failed, idle or with the batch in flight |
| Engine.MolinkEngine.StepComplete | MoLink-main/molink/engine/molink_engine.py:218-221 | a processed batch is freed and its task over |
| BatchNumber.BatchPlanner.CalculateBatchNumDefault | MoLink-main/molink/engine/molink_engine.py:617-635 | on every path the count is in 1..10 and count times limit covers all requests; when the search runs it returns the least count that hides the bubble, else the maximum, and leaves the matching limit |
| BatchNumber.HidesWhen | MoLink-main/molink/engine/molink_engine.py:603-634 | the bubble is hidden with n batches exactly when the computing of n - 2 batches with 5 ms of overhead each takes no less time than sending a batch twice at 1000 Mbps and 5 ms |
| BatchNumber.BatchPlanner.CalculateBatchNumChunkedPrefill | MoLink-main/molink/engine/molink_engine.py:637-650 | two batches, whose decode token limits together are two more than the running groups in the decode stage |
| BatchNumber.BatchPlanner.CalculateBatchNum | MoLink-main/molink/engine/molink_engine.py:506-509 | in either mode, and without a profile in the chunked one, the count is in 1..10, the schedule limit stays positive, and count and limits are the plan of the mode |
| BatchNumber.ComputeLatency | MoLink-main/molink/engine/molink_engine.py:580-600 | the loop over the sorted keys computes the interpolation |
| BatchNumber.ExactAtSamples | MoLink-main/molink/engine/molink_engine.py:590-600 | the estimate is exact at every sampled size |
| BatchNumber.WithinNeighbours | MoLink-main/molink/engine/molink_engine.py:590-600 | between two samples the estimate lies between theirs |
| BatchNumber.MonotoneInRange | MoLink-main/molink/engine/molink_engine.py:590-600 | if the samples increase, so does the estimate over the sampled range |
| BatchNumber.BeyondRange | MoLink-main/molink/engine/molink_engine.py:595-596 | at or beyond the largest sample, the estimate reaches that sample exactly when the size is that sample: beyond it the code falls back to the latency of one request |
| BatchNumber.OutsideRange | MoLink-main/molink/engine/molink_engine.py:583-596 | for size 0 and for every size beyond the largest sample the estimate is the latency of one request |
| BatchNumber.EvenSteps | MoLink-main/molink/engine/molink_engine.py:597-600 | between two neighbouring samples the estimate grows by equal steps, which add up to their difference |
| PipelineProtocol.ResultIsWholeModel | MoLink-main/molink/executor/mp_distributed_executor.py:367-424 | in every run, under any order of messages, joins and other engines, the result dequeued for an engine is the answer to the batch launched there: for the states that start with the embedded request and follow each other through layer 0, layer 1 and so on, the norm of the last one; it is also the composition of the snapshot's stages, and nothing of the batch is left anywhere |
| PipelineProtocol.RunsKeepInv | MoLink-main/molink/comm/comm_handler.py:76-146 | in every state each outstanding batch has exactly one carrier and one trigger per worker that has not begun, and nothing else is in flight |
| PipelineProtocol.Step | MoLink-main/molink/executor/mp_distributed_executor.py:400-422 | every event keeps that invariant and brings the batch it concerns exactly one event closer to its result |
| PipelineProtocol.NoBatchLost | MoLink-main/molink/comm/comm_handler.py:107-121 | in no run does a stage drop its batch: the return for a missing next server is not reached |
| PipelineProtocol.WorkerRoute | MoLink-main/molinkv1/executor.py:680-760 | for a tiling snapshot a worker sends on to the next server, or back if it is last, and the v1 rule by list place agrees with the v0 rule by last-stage flag |
| PipelineProtocol.TriggerNeverMissing | MoLink-main/molink/executor/mp_distributed_executor.py:411-419 | when a batch's tensors are in a worker's input queue, the trigger that will take them is there |
| PipelineProtocol.NeverStuck | MoLink-main/molink/executor/mp_distributed_executor.py:421-424 | while the head waits for an engine's result, some event of that batch can happen |
| PipelineProtocol.EventsPerBatch | MoLink-main/molink/executor/mp_distributed_executor.py:400-463 | from launch to result a batch over n servers takes exactly 4 n events, or two if the head is alone |
| PipelineProtocol.DeliveryQueueBound | MoLink-main/molink/executor/mp_distributed_executor.py:42-43 | no delivery queue ever holds more items than there are engines, so ten engines never fill its hundred slots |
| PipelineProtocol.HeadStep | MoLink-main/molink/executor/mp_distributed_executor.py:430-463 | the head's own stage leaves exactly one item: the result, or the state after its layers for the second server |
| PipelineProtocol.StageStep | MoLink-main/molink/comm/comm_handler.py:97-141 | a worker's stage leaves exactly one item: the result for the head, or the state after its layers for its successor |
| JointRuns.LaunchFindsEngineFree | MoLink-main/molink/engine/molink_engine.py:84-153 | in every run of the engine with the pipeline, a task about to launch its batch finds its virtual engine free, so the premise of the pipeline's launches is met |
| JointRuns.DeliveryQueueNeverFull | MoLink-main/molink/executor/mp_distributed_executor.py:42-43 | in every state of such a run the entries in any delivery queue are at most ten, fewer than its slots |
| JointRuns.TaskGetsItsAnswer | MoLink-main/molink/executor/mp_distributed_executor.py:421-424 | the result a task takes off its engine's queue is the answer to the batch that this task launched: the norm of the last of the states that follow each other through all layers in turn, which is what one node with all layers computes |
| SharedEngine.FreeLaunchesAreSafe | MoLink-main/molinkv1/executor.py:366-452 | if batches share engines but every launch finds its engine free, each result is the answer to the launch it goes to |
| OrderedEngine.SecondLaunchSafeIff | MoLink-main/molinkv1/executor.py:366-452 | with the head's lock and the output queues in order: after any run of launches on free engines, a launch on an engine that still waits can lead to an exchange of answers if and only if the batch before it goes over two or more servers and its result is not in the output queue yet |
| OrderedEngine.BusyLaunchExchanges | MoLink-main/molinkv1/delivery.py:146-183 | in that case there is a run that puts only the second result into the queue, next for the launch that waits longest |
| OrderedEngine.QueuedOrAloneIsFirst | MoLink-main/molinkv1/executor.py:441-452 | otherwise the answer of the launch that waits longest is, or will be, the first of its engine |
| OrderedEngine.FirstStays | MoLink-main/molinkv1/executor.py:476-500 | and stays so over all events until it is served |
| OrderedEngine.ExchangeFromStart | MoLink-main/molinkv1/executor.py:366-452 | two launches in a row from the empty system can exchange their answers, for any tiling snapshot of two or more servers and any two requests with different answers |
| OrderedEngine.StepAgrees | MoLink-main/molinkv1/service.py:178-216 | every event keeps lock queue and output queues in agreement with the tasks and results in flight |
| SharedEngine.MovesToAWire | MoLink-main/molinkv1/delivery.py:146-183 | a batch without a result can move on to a wire while the items of all others stand still |
| SharedEngine.RunsThrough | MoLink-main/molinkv1/delivery.py:146-183 | a batch can reach its result while the items of all others stand still |
| CommService.CommService.JoinPipeline | MoLink-main/molink/comm/comm_handler.py:24-31 | a joining node is appended to the pool, even again, and put in the dictionary once |
| CommService.CommService.PushIntermediateTensors | MoLink-main/molink/comm/comm_handler.py:38-56 | appends exactly the delivered message to the engine's input queue, as the delivery event does; an unknown engine drops it |
| CommService.CommService.PushSamplerOutput | MoLink-main/molink/comm/comm_handler.py:63-69 | adds exactly the result to the engine's output queue |
| CommService.CommService.BeginWorkerStep | MoLink-main/molink/comm/comm_handler.py:79-80 | takes the oldest entry of the engine's input queue, and nothing else |
| CommService.CommService.FinishWorkerStep | MoLink-main/molink/comm/comm_handler.py:97-141 | running the stage and searching the server list puts into the delivery queue exactly what the protocol's stage event leaves; a full queue loses it |
| CommService.CommService.PutNowait | MoLink-main/molink/executor/mp_distributed_executor.py:462-463 | adds one entry to a delivery queue that has room |
| CommService.CommService.TakeDelivery | MoLink-main/molinkv1/delivery.py:146-183 | the consumer takes the oldest entry of the delivery queue |
| CommService.Deliverer.ChannelFor | MoLink-main/molink/executor/mp_distributed_executor.py:91-95 | the channel in use is the one to the destination of the entry being sent |
| CommService.HeadServer.RefreshStubs | MoLink-main/molink/executor/mp_distributed_executor.py:404-412 | the refresh fails exactly when the new server list is a proper prefix of the cached one; otherwise the stubs are those of the new list |
| CommService.HeadServer.UpdateStubList | MoLink-main/molinkv1/executor.py:301-311 | the stubs are those of the new list |
| CommService.HeadServer.Launch | MoLink-main/molink/executor/mp_distributed_executor.py:385-419 | starts the head's stage and one trigger for each other server of the sorted list, as the launch event does; exactly when the refresh fails it starts the head's stage alone |
| CommService.HeadServer.ExecutingHeadServer | MoLink-main/molink/executor/mp_distributed_executor.py:430-463 | the head's stage puts into its queues exactly what the protocol's head event leaves |
| CommService.JoinsKeepStubs | MoLink-main/molink/executor/mp_distributed_executor.py:404-412 | while nodes only join or rejoin, the refresh never fails |
| CommService.LeavingBreaksStubs | MoLink-main/molink/executor/mp_distributed_executor.py:404-412 | after a server has left, the refresh of its pipeline's stubs fails exactly if it was the last one, or one of two |
| LayerSplit.TilingComputesWhole | MoLink-main/molink/model_executor/models/llama.py:353-381 | for every tiling of the layers, the chain of stages computes what one node with all layers computes, and that is the norm of the last of the states that start with the embedded request and follow each other through layer 0, layer 1 and so on |
| LayerSplit.OneAnswer | MoLink-main/molink/model_executor/models/llama.py:353-381 | every request has exactly one answer in that sense |
| LayerSplit.StageAdvances | MoLink-main/molink/model_executor/models/llama.py:353-381 | the k-th stage turns the state after the earlier layers into the state after its own, and only the last normalises |
| LayerSplit.RunForward | MoLink-main/molink/model_executor/models/llama.py:353-381 | the loop over the slice takes the first state (embedded on a first stage, received on others) through the layers of the range one after another and normalises exactly on a last stage; it fails its assertion exactly if a later stage receives nothing |
| LayerSplit.SliceIsOwnLayers | MoLink-main/molink/model_executor/models/utils.py:22-37 | the slice a node runs holds its own layers in order and no placeholder |
| LayerSplit.OneFirstOneLast | MoLink-main/molink/engine/molink_engine.py:367-383 | in a tiling exactly the first range is a first stage and exactly the last a last one |
| LayerSplit.ServingLayersComputeWhole | MoLink-main/molink/engine/molink_engine.py:369-381 | v0 nodes whose options adjoin from layer 0 to the last compute what one node computes, and only the first and the last have the option that sets their flag |
| Topology.ChainVisitsAll | MoLink-main/molinkv1/utils.py:169-233 | following `get_next_server` from the first server visits every node once, in the order of `get_pp_rank`, and ends at `is_last_server` |
| Topology.SortIsStable | MoLink-main/molinkv1/utils.py:169-176 | the server list has the same nodes by start layer, equal start layers in insertion order |
| Topology.ServerLeaves | MoLink-main/molinkv1/utils.py:159-176 | removing a node takes its address out of the server list and leaves the others in order |
| Topology.HeadLeads | MoLink-main/molinkv1/utils.py:169-176 | the first node of the dictionary leads the list exactly when no node starts below it |
| Topology.HeadStays | MoLink-main/molinkv1/utils.py:121-167 | over any sequence of adds, re-adds and removals other than the head's, the head stays first in the dictionary, and leads exactly while no node starts below it |
| Topology.RankZero | MoLink-main/molinkv1/utils.py:220-233 | rank 0 means the first server or an unknown address |
| Topology.PipelineTopology.AddNode | MoLink-main/molinkv1/utils.py:126-157 | pool and dictionary keep listing the same addresses once each in the same order with equal start layers; a known address is replaced in place |
| Topology.PipelineTopology.RemoveNode | MoLink-main/molinkv1/utils.py:159-167 | the same after a removal, whether or not the address is known |
| Topology.PutAt | MoLink-main/molinkv1/utils.py:135-153 | assigning to a key changes it in place or appends |
| ParallelState.ServesWhatItAsks | MoLink-main/molinkv1/parallel_state.py:118-138 | a node serves exactly those layers of the model it asks for, or all if it asks for none of them |
| ParallelState.ChainTiles | MoLink-main/molinkv1/parallel_state.py:118-138 | nodes that each take up where the previous one ends tile the model exactly when the last starts inside it and ends at -1 or at or after the last layer |
| ParallelState.ChainedNodesComputeWhole | MoLink-main/molinkv1/parallel_state.py:161-180 | a chain that tiles has one first and one last flagged stage once the number of layers is known, and its nodes, run by those flags, compute what one node computes |
| ParallelState.KnownChainComputesWhole | MoLink-main/molinkv1/parallel_state.py:56-70 | with the number of layers known, nodes run by their flags compute what one node computes exactly when the last reaches the last layer |
| ParallelState.GuessedChainComputesWhole | MoLink-main/molinkv1/worker.py:283-288 | as both initialisations set the flags, without the number of layers, they do so exactly when the last end is given as -1; with an explicit end the run ends without normalising |
| ParallelState.ExplicitHalves | MoLink-main/molinkv1/worker.py:283-288 | 32 layers in explicit halves tile the model and yet end without normalising; with -1 for the second end they compute the whole |
| ParallelState.ChainByFrom | MoLink-main/molinkv1/parallel_state.py:56-70 | whatever is known, the nodes bring the state to the end of the last one's layers, and its flag alone decides the outcome |
| ParallelState.FlagsFit | MoLink-main/molinkv1/parallel_state.py:169-180 | with the number of layers known the flags fit the resolved range, except when it falls back to all layers |
| ParallelState.GuessIsRight | MoLink-main/molinkv1/parallel_state.py:60-70 | the last-stage flag guessed without the number of layers is right exactly when the end is -1 or lies inside the model and after the start |
| ParallelState.ParallelState.Init | MoLink-main/molinkv1/parallel_state.py:50-70 | sets the state and, if enabled, flags that follow from it |
| ParallelState.ParallelState.GetPpIndices | MoLink-main/molinkv1/parallel_state.py:111-138 | the steps of the clamping compute `Resolve`, or vLLM's own range when disabled |
| ParallelState.ParallelState.UpdateStageInfo | MoLink-main/molinkv1/parallel_state.py:169-180 | keeps the flags in step with the number of layers, and a disabled node as it was |
| ParallelState.ParallelState.Destroy | MoLink-main/molinkv1/parallel_state.py:189-203 | restores the initial state |
| WorkerSlot.TensorsMatchBatch | MoLink-main/molinkv1/service.py:244-293 | in every interleaving of steps, an execution that needs tensors used the ones that arrived with its batch, and no handler executes twice |
| WorkerSlot.SlotWhenFree | MoLink-main/molinkv1/executor.py:574-605 | with the lock free, the slot is empty exactly when nothing was executed or the last executed batch used its tensors |
| WorkerSlot.SlotEmptyWhenFree | MoLink-main/molinkv1/worker.py:189-192 | on a node that is not the first, with positive token counts, the slot is empty whenever the lock is free |
| WorkerSlot.EntriesInOrder | MoLink-main/molinkv1/service.py:244-248 | an engine's entries reach its handlers in order of arrival, none lost or handed out twice |
| WorkerSlot.StepKeeps | MoLink-main/molinkv1/service.py:281-287 | every step keeps the lock with one handler and its tensors in the slot from loading to execution |
| WorkerSlot.Worker.ExecuteModel | MoLink-main/molinkv1/worker.py:169-192 | takes and clears the slot exactly for a batch with tokens on a stage that is not the first |
| WorkerSlot.Worker.DriverExecModel | MoLink-main/molinkv1/executor.py:574-605 | under the lock a batch gets its own tensors whatever an earlier batch left in the slot |
| WorkerSlot.Worker.GetIntermediateTensors | MoLink-main/molinkv1/worker.py:71-79 | returns and clears the slot |
| PlaceholderLedger.PlaceholdersAreOutstanding | MoLink-main/molinkv1/scheduler.py:46-64 | over any order of schedules and outputs a request's placeholders are its outstanding token-producing steps, and computed tokens stay below tokens plus placeholders |
| PlaceholderLedger.CachesAllButNewest | MoLink-main/molinkv1/scheduler.py:80-88 | the assertion never fails, and the length passed to `cache_blocks` is the number of known tokens without the one just sampled |
| PlaceholderLedger.OneTokenAhead | MoLink-main/molinkv1/scheduler.py:54-64 | while tokens are outstanding a request is scheduled for one token, and that step produces the next |
| PlaceholderLedger.StructuredStillToCome | MoLink-main/molinkv1/scheduler.py:49-51 | the flag about structured output is set exactly when a scheduled request that uses it has a step outstanding that will still produce a token |
| PlaceholderLedger.EventKeepsInv | MoLink-main/molinkv1/scheduler.py:40-88 | each schedule or output keeps the ledger balanced |
| PlaceholderLedger.MolinkAsyncScheduler.UpdateAfterSchedule | MoLink-main/molinkv1/scheduler.py:40-68 | the two passes over the batch leave each scheduled request as if it had taken its step alone, and flag pending structured output exactly when a scheduled request awaits tokens |
| PlaceholderLedger.MolinkAsyncScheduler.UpdateRequestWithOutput | MoLink-main/molinkv1/scheduler.py:70-89 | n new tokens replace n placeholders, the assertion fails exactly if there were fewer, and blocks are cached only for a running request |
| Dht.StoredListIsGood | MoLink-main/molink/comm/dht.py:24-36 | under every interleaving of reads and writes the stored list has no duplicates and only participants |
| Dht.OverlapLoses | MoLink-main/molink/comm/dht.py:25-36 | whatever is written in between, a node's write leaves exactly what its read listed and the node itself, so another registration survives exactly if it was listed at the read |
| Dht.LostRegistration | MoLink-main/molink/comm/dht.py:25-36 | a run of two nodes in which one registration is lost |
| Dht.RefreshesAddAll | MoLink-main/molink/comm/dht.py:41-46 | whole refreshes keep what is listed, in order, and add every node that refreshed |
| Dht.RefreshesComplete | MoLink-main/molink/comm/dht.py:24-46 | in any run whose reads and writes do not overlap, starting and ending with no write pending, what is stored is what whole refreshes by the reading nodes would store: all of them are listed |
| Dht.CompleteListIsStable | MoLink-main/molink/comm/dht.py:32-36 | once all participants are listed and no write is pending, nothing ever changes the list |
| Dht.DhtNode.Refresh | MoLink-main/molink/comm/dht.py:24-46 | an uninterrupted refresh stores the list with the node added once, and its data |
| Dht.ManagePipeline | MoLink-main/molink/comm/pipeline_manager.py:12-36 | the loop over the listed ids builds the sorted server list of the nodes whose data is there |
| Dht.ViewListsPublished | MoLink-main/molink/comm/pipeline_manager.py:18-35 | that list holds exactly the addresses of listed nodes with data, once each |
| Dht.ViewSorted | MoLink-main/molink/comm/pipeline_manager.py:18-35 | the list is ordered by start layers that listed nodes have published for those addresses |
| IndexMaps.TransposedAt | MoLink-main/molink/model_executor/models/bloom.py:346-355 | reshape, transpose and reshape move the entry of each index to the place of the exchanged index |
| IndexMaps.TransposedTwice | MoLink-main/molink/model_executor/models/bloom.py:346-355 | the move can be undone, so it is one to one |
| IndexMaps.BloomAt | MoLink-main/molink/model_executor/models/bloom.py:341-355 | the rearrangement succeeds exactly when three times the heads divide the rows; behind each index of the dimensions in front, query, key and value then each form one block with the heads in order |
| IndexMaps.BloomInverts | MoLink-main/molink/model_executor/models/bloom.py:341-355 | no entry is lost or doubled |
| IndexMaps.FalconAt | MoLink-main/molink/model_executor/models/falcon.py:418-439 | behind each index of the dimensions in front, all query heads come first, then all keys, then all values, groups in order |
| IndexMaps.FalconPlaces | MoLink-main/molink/model_executor/models/falcon.py:418-439 | the places of query, key and value heads in plain numbers, by leading index, group, head and entry |
| IndexMaps.FalconOneToOne | MoLink-main/molink/model_executor/models/falcon.py:418-439 | every entry goes to exactly one place and every place gets exactly one entry, with an explicit inverse, for any dimensions in front |
| IndexMaps.FalconLoads | MoLink-main/molink/model_executor/models/falcon.py:401-439 | loading succeeds exactly when there are key heads and the groups of heads divide the rows, and puts every entry in the place of the rows above |
| IndexMaps.FalconHeads | MoLink-main/molink/model_executor/models/falcon.py:401-407 | the new architecture has the configured key heads, each with its share of the query heads; without it, multi-query is one group of all query heads, and otherwise each query head has its own key and value |
| IndexMaps.CatAt | MoLink-main/molink/model_executor/models/falcon.py:439-439 | concatenation behind the dimensions in front alternates the two parts |
| IndexMaps.SplitsRows | MoLink-main/molink/model_executor/models/bloom.py:346-351 | a view by heads with an inferred head size succeeds exactly when the heads divide the rows, and covers the weight |
| IndexMaps.NarrowAt | MoLink-main/molink/model_executor/models/falcon.py:425-438 | the narrowed and flattened heads are those of every group in order |
| IndexMaps.PermuteAt | MoLink-main/molink/model_executor/models/llama.py:590-595 | in each head the even rows come first, then the odd ones |
| IndexMaps.PermutePlaces | MoLink-main/molink/model_executor/models/llama.py:590-595 | row 2p + o of a head becomes its row o times half the head size plus p |
| IndexMaps.PermuteInverts | MoLink-main/molink/model_executor/models/llama.py:590-595 | the permutation has an inverse |
| IndexMaps.PermuteApplies | MoLink-main/molink/model_executor/models/llama.py:590-595 | it applies to a weight exactly when there are heads, and their size is even or there is nothing to move |
| IndexMaps.FrameVisits | MoLink-main/molink/model_executor/models/qwen2_vl.py:598-613 | each cell of the grid is visited exactly once, at its place in merge-block order: by block row and column, then by row and column in the block |
| IndexMaps.FrameCell | MoLink-main/molink/model_executor/models/qwen2_vl.py:598-613 | each place of the order holds a cell of the grid |
| IndexMaps.FitsWhen | MoLink-main/molink/model_executor/models/qwen2_vl.py:600-605 | the reshape into merge blocks succeeds for a grid without cells, and else exactly if the merge size divides both sides |
| IndexMaps.PositionsAt | MoLink-main/molink/model_executor/models/qwen2_vl.py:597-616 | the cells of a grid follow those of earlier grids, the same frame repeated |
| IndexMaps.RotPosEmb | MoLink-main/molink/model_executor/models/qwen2_vl.py:595-616 | the loop over the grids builds these positions, and fails exactly when there is no grid or one does not fit the merge blocks |

## Left out

- SchedulerSpec: multi-step scheduling, speculative tokens and lookahead slots are not modelled; they depend on vLLM state outside the repository.
- SchedulerSpec: the block lists (swap in, swap out, copy) are not modelled; they are vLLM's.
- SchedulerSpec: a missing LoRA set (`curr_loras` None), which only vLLM's default path passes, is not modelled.
- EngineRuns.CompositionMarks: what vLLM's default path does between and after the scans is its contract in `EngineRuns.Enabled`, not a model of it.
- SchedulerSpec: the assertion that a waiting group has one sequence, and the check of prompt lengths inside vLLM's helpers, are not modelled; prompt limits are an answer of the oracle.
- SchedulerSpec: the `except` at MoLink-main/molink/core/scheduler.py:344-345, which makes the step return nothing, is not modelled.
- SchedulerSpec: the flag `prev_prompt` and the arrival times behind `_passed_delay` are vLLM's; whether the delay has passed is an answer of the oracle.
- SchedulerOutcome.VictimGoes: as the other lemmas of its module about single groups, is stated for queues in which no group is twice, which every reachable state has.
- SchedulerBudget.PrefillsFirst: takes waiting groups to be prefills: vLLM adds new requests as such, and sets a group that it preempts by recomputation back to the prefill stage. The model leaves the stage of a preempted group as it was until the queues change between two steps.
- SchedulerBudget.AssertionsFailWithoutRoom: is stated for running queues without duplicate ids, which every reachable state has.
- SchedulerBudget.ReportedTokens: takes vLLM's token helper to stay within the remaining budget and to count one token for a decode, and groups of the running queue to have one sequence.
- Scheduler.MolinkScheduler.ScheduleChunkedPrefill: its output has no block lists and no number of lookahead slots, which are vLLM's.
- Scheduler.MolinkScheduler.ScanAndMerge: the same.
- Engine.MolinkEngine.StepSchedule: whether there are blocks to move is a parameter; multi-step caching after the call is not modelled.
- EngineRuns.RunsKeepExclusion: assumes that requests entering the queues between events have ids of their own there.
- BatchNumber.BatchPlanner.CalculateBatchNumDefault: uses exact rationals; the code divides in floating point and truncates, which agrees for counts below 2^53.
- PipelineProtocol.ResultIsWholeModel: is for stages whose flags fit their ranges, as in v0, and runs in which the head's snapshot tiles the layers at each launch; nodes may join at any time, but a node keeps the layers it loaded.
- PipelineProtocol: timeouts, exceptions swallowed by `except`, shutdown, the localhost mapping of the AutoDL mode and topology from the hash table are not events.
- OrderedEngine: only the head's lock and the output queues are ordered; the locks and queues of the workers are not, as their steps can overtake each other before they take the lock.
- PipelineProtocol: the v1 path with the head alone, which encodes JSON and decodes pickle, and the skipping of a batch without tokens are not modelled.
- CommService.CommService.FinishWorkerStep: serialisation (msgspec, cloudpickle, JSON, torch.save) and copies to the CPU are the identity.
- LayerSplit.RunForward: auxiliary hidden states are not modelled.
- ParallelState: patching vLLM's process group and the vLLM fallback range are not modelled; the fallback is a parameter.
- WorkerSlot: the timeout on the input queue and the fan-out of the RPC to several local workers, which all hold the same tensors, are not modelled.
- PlaceholderLedger: speculative tokens and preemption are not modelled; every producing step yields one token.
- Dht: the distributed store is one atomic register; partitions, expiry and node failures are not modelled.
- IndexMaps: the dimensions in front of the rearranged one are counted together as one, and so are those behind it.
- gRPC, sockets, ports, multiprocessing, event-loop threads, HTTP servers, command lines, generated protobuf code, benchmarks, tensor numerics and the model files that repeat the Llama stage pattern.
