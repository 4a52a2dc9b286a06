# Verified models of cfw

cfw is a publish/subscribe and callback-scheduling framework. This project models its
stateful cores in Dafny and proves what they promise, over every input, every interleaving
or every run. `dafny verify dfyconfig.toml` checks everything.

## What is modelled

**Live scheduler** (`LiveScheduler*.dfy`). Each node has a six-state atomic that publishers,
timers, workers and drains change by compare-and-swap. Every atomic operation is one step; every
thread has a program counter for the positions in between (counted but not swapped, swapped but
not sent, received but not claimed, released but not discounted). `Run` folds any schedule of
(thread, action) pairs, so a theorem about `Run` is a theorem about every sequentially
consistent interleaving. A compare-and-swap may also fail spuriously.

**Arena** (`ArenaLifecycle.dfy`). The ref-counted slot allocator, one atomic operation per step;
handles are the agents.

**Capacity planning** (`Storage*.dfy`, `ForwardingBudget.dfy`, `ForwardingGuarantees.dfy`). The planner's checked arithmetic, the places where a handle can be
(pending, on loan, being fanned out, in a subscriber's two queues, in flight in a drain, displaced
by another publisher, kept by a user), and the memoised search that extends the budget over
forwarding edges.

**Subscriber buffers** (`DoubleBuffer.dfy`). The displacing queue and the read buffer as a class,
and runs in which pushes interleave with a drain.

**Simulation** (`Simulation*.dfy`, `BatchExecution.dfy`). The discrete-event scheduler as functions
on values, the loops of the source as methods of a class proved equal to those functions, and
theorems over every run of scheduling commands and steps. What user code does (actions, bodies,
durations, deadlines, arriving inputs) is a parameter of each step.

**Recorder, log validator, exact replay** (`ExecutionRecorder.dfy`, `ReplayLog.dfy`,
`RecordedLogs.dfy`, `ExactReplay.dfy`). One record for each body invocation, the checks of `finish`,
and the meaning of an exact report.

**Sorted logs and replay feed** (`StableSort.dfy`, `ExternalSort.dfy`, `LogStream.dfy`,
`ReplayFeed.dfy`). The external merge sort against the unique stable sort by time, and the
interruptible feed.

`Basics.dfy` and `StableSort.dfy` hold what several of these share.

## Findings

- A drain can return true while a node is queued: an outside thread that triggers after the second
  idle read is not seen. `DrainIsRightExactly` gives the condition: a drain that returns true is right
  in every interleaving if and only if there is no node or at most one thread outside the workers and
  timers. For any two such threads `DrainMissesLateTrigger` builds the failing schedule;
  `DrainFoundQuiescence` and `NoClaimAfterQuiescence` say what a successful drain guarantees in any case.
- The planned arena has no slot for the handle that another publisher displaced and has not
  released yet. `SafeExactly` gives the condition for any subscribers, any connection flags and any
  number of handles that users keep: users and other publishers together must fit into the retained
  budget and what the connected subscribers leave spare. Spare are the footprints of unconnected
  subscribers and all write queues but the longest, because every write queue holds a suffix of the
  same publications (`RunShares`). With one subscriber nothing is spare, and the plan is safe exactly
  when the channel has no other publisher (`SafeExactlyWithoutRivals`).
- The counter of truncated record entries has 16 bits. A record that lost a positive multiple of
  65536 entries looks complete, to the replay as well (`TruncationCanHide`); `TruncationShows` gives
  the exact condition. The wrap-around is that of a build without overflow checks.
- `finish` compares what records list, not what was published. An output that publishes in two
  executions at the same time passes if truncation keeps it off one of the records
  (`TruncationHidesClash`). `FinishAcceptsRun` states the exact condition on what executions publish:
  the log passes if and only if no output sends at the same time in two executions, each time with
  its first message among the first 16; without truncation, if and only if no output sends twice at
  one time (`FinishAcceptsUntruncatedRun`).

## Model

| member | source | states |
|---|---|---|
| LiveSchedulerCounts.RunKeepsCounts | live_executor/src/pool_state.rs:214-315 | Every interleaving keeps the token, owner and `active` accounting and reaches no fault: no failed assertion, `unreachable!`, full channel or counter underflow |
| LiveSchedulerCounts.SingleToken | live_executor/src/pool_state.rs:214-278 | In every interleaving a queued node has exactly one token (about to be sent, in its pool's channel, or received and unclaimed), any other node none; after a stop at most one |
| LiveSchedulerCounts.ChannelHasRoom | live_executor/src/pool_state.rs:47-88 | A thread about to send a token finds a queue sized by the pool's node count not full |
| LiveSchedulerCounts.OneWorkerPerNode | live_executor/src/pool_worker.rs:9-41 | In no interleaving do two workers update, run or release the same node at once |
| LiveSchedulerCounts.NextIsBalanced | live_executor/src/pool_state.rs:264-315 | Each atomic operation moves tokens, ownership and `active` shares exactly as it moves the node's state; `claim` and `finish` never meet an impossible state |
| LiveSchedulerReadiness.NoLostReadiness | task/src/subscriber.rs:170-179 | In every interleaving, a node parked in Waiting with no notification on its way has a required input whose read buffer and write queue are both empty |
| LiveSchedulerReadiness.RunKeepsReadiness | live_executor/src/pool_worker.rs:17-38 | Besides, what a worker has established between claim and release (inputs swept, an input found missing) holds as long as no notification arrives |
| LiveSchedulerReadiness.NotificationRespects | live_executor/src/pool_state.rs:214-261 | A notification in flight ends only by leaving Waiting and Running, or by seeing the stop flag |
| LiveSchedulerTriggers.TriggersAreServed | live_executor/src/pool_state.rs:224-301 | In every interleaving a node that is idle owes no execution: each of its triggers was followed by a claim that began after it and whose run was released as executed |
| LiveSchedulerTriggers.RunKeepsTrace | live_executor/src/pool_state.rs:284-301 | In every interleaving the triggers of an idle node are all served, and those of a running node that was not retriggered all came before its current claim |
| LiveSchedulerDrain.ActiveIsExact | live_executor/src/pool_state.rs:93-128 | `active` equals the busy nodes plus the threads between two of its updates; all nodes are parked exactly when only such threads are counted |
| LiveSchedulerDrain.DrainFoundQuiescence | live_executor/src/stop_signal.rs:39-70 | A drain that returned true saw a moment with nothing counted and timers off; without outside notifications since, every node is still parked and nothing was claimed |
| LiveSchedulerDrain.NoClaimAfterQuiescence | live_executor/src/stop_signal.rs:39-70 | After that moment no claim follows in any continuation without outside notifications |
| LiveSchedulerDrain.CalmStays | live_executor/src/pool_state.rs:105-128 | Workers, timers and other drains keep a calm state calm and change no node |
| LiveSchedulerDrain.RunKeepsLock | live_executor/src/pool_state.rs:105-128 | The timer lock has one holder, due work is dispatched only while timers are on, and they stay off after `quiesce_timers` |
| LiveSchedulerLateTrigger.DrainIsRightExactly | live_executor/src/stop_signal.rs:39-70 | All nodes are parked whenever a drain has returned true, in every interleaving, if and only if there is no node or at most one thread outside the workers and timers |
| LiveSchedulerLateTrigger.DrainMissesLateTrigger | live_executor/src/stop_signal.rs:39-70 | For any two outside threads and at least one node there is a schedule in which one drains and returns true while the node that the other triggered is queued |
| LiveSchedulerLateTrigger.SoleDrainIsCalm | live_executor/src/stop_signal.rs:39-70 | With at most one outside thread a drain that has read idle twice finds nothing counted, no token and no work in progress, until after it returns |
| ArenaLifecycle.SlotLifecycle | base/src/arena.rs:38-94 | In every interleaving each slot is once in the free list, or once in transit, or ref-counted by exactly its handles (plus clones that panicked); neither panic of the arena is reached |
| ArenaLifecycle.PayloadLifecycle | base/src/arena.rs:113-166 | Each initialised payload is destroyed exactly once, and a slot is free, in transit or on loan only after its destructor ended |
| ArenaLifecycle.RunKeepsSound | base/src/arena.rs:289-341 | The accounting behind both holds after every run from a new arena |
| ArenaLifecycle.OnlyHolder | base/src/arena.rs:64-94 | A handle that sees a count of one is the slot's only holder |
| ArenaLifecycle.FreeListHasRoom | base/src/arena.rs:64-94 | A slot that is returned finds room in the free list |
| StorageBudget.Capacity | task/src/storage.rs:57-78 | Returns loans + retained + (2c+1) for each subscriber exactly when that fits and every capacity is positive; otherwise the error met first |
| StorageBudget.RunKeepsBounds | task/src/output.rs:113-154 | Over every interleaving pending, loaned and fanned-out messages share the loan quota and every subscriber holds at most 2c+1 handles |
| StorageBudget.LoanFindsSlot | task/src/publisher.rs:223-229 | In every interleaving of loans, sends, flushes, drains and other publishers: below the quota a slot is free while kept and displaced handles stay within the retained budget |
| StorageBudget.RetainedBudgetSuffices | task/src/storage.rs:57-78 | It suffices that users leave one retained slot for each other publisher |
| StorageSharing.RunShares | task/src/publisher.rs:282-320 | In every interleaving the own entries of each connected write queue are a suffix of one sequence of publications (without the one still being fanned out where it has not arrived), and unconnected subscribers hold none |
| StorageSharing.SharedLoanFindsSlot | task/src/storage.rs:57-78 | Below the quota a slot is free while kept and displaced handles leave room for c+1 handles of each connected subscriber and one longest write queue |
| StorageSharing.UnboundLoanFindsSlot | task/src/publisher.rs:223-229 | A publisher without connected subscriber finds a slot whatever its rivals do |
| StorageRace.RivalsExhaust | base/src/mpsc_queue.rs:23-29 | For all subscribers, flags and user allowances beyond that condition some run leaves no free slot below the quota although users keep no more than they may |
| StorageRace.SafeExactly | task/src/storage.rs:57-78 | While users keep at most `users` handles, a loan below the quota finds a slot in every interleaving if and only if nothing is loaned, nobody is connected, or users + other publishers <= retained + footprint - sum over connected (c+1) - largest connected c |
| StorageRace.SafeWhenConnected | task/src/storage.rs:57-78 | With all subscribers connected the plan is safe if and only if there are no more other publishers than the capacities sum to beyond the largest |
| StorageRace.SafeExactlyWithoutRivals | task/src/storage.rs:57-78 | With one subscriber the planned capacity is safe in every interleaving if and only if there is no other publisher |
| ForwardingBudget.TotalPublisherCapacity | task/src/channel.rs:271-296 | The sum of the planned arenas of a channel, or the first error |
| ForwardingBudget.GraphPlan.Budget | task_graph/src/bundle.rs:203-238 | The memoised search terminates and answers, errors included, what the search without a memo answers; on success exactly the channels visited have their retention reserved |
| ForwardingBudget.GraphPlan.BudgetOutputs | task_graph/src/bundle.rs:222-227 | The checked sum over a channel's outgoing edges, in edge order |
| ForwardingBudget.GraphPlan.ReserveForwarding | task_graph/src/bundle.rs:228-234 | Unknown and non-forwarding channels are refused; otherwise only this channel's retention changes |
| ForwardingBudget.GraphPlan.PrepareForwarding | task_graph/src/bundle.rs:202-249 | Succeeds or reports the first edge whose source cannot be budgeted; on success every channel on an edge has its retention and nothing else changed |
| ForwardingBudget.SlotsIgnorePath | task_graph/src/bundle.rs:209-211 | A successful answer does not depend on the path that led to the channel, which is what makes the memo sound |
| ForwardingGuarantees.FailsExactlyOnObstacle | task_graph/src/bundle.rs:203-238 | The search fails if and only if some walk along edges closes a cycle or reaches an unknown channel, a non-forwarding one, or one that overflows although everything below it fits |
| ForwardingGuarantees.PreparationSucceedsExactly | task_graph/src/bundle.rs:202-249 | Preparation succeeds if and only if no walk from an edge's source is blocked |
| ForwardingGuarantees.PreparedIsUniqueSolution | task_graph/src/bundle.rs:222-237 | The result solves "retention = sum over outgoing edges of the target's slots", and every solution agrees with it |
| ForwardingGuarantees.PreparingAgainChangesNothing | task_graph/src/bundle.rs:202-249 | Preparing a prepared graph succeeds and changes nothing |
| ForwardingGuarantees.PreparedNeverRunsOut | task_graph/src/bundle.rs:202-249 | In a prepared graph, if each live target slot keeps at most one source handle for each edge and users (with what other publishers displaced) stay within the retained budget, every publisher of every channel finds a slot in every interleaving |
| ForwardingGuarantees.SpareSlotPerPublisher | task_graph/src/bundle.rs:202-249 | The same from what users keep alone, if they leave one retained slot for each other publisher |
| DoubleBuffer.Buffer.Push | base/src/mpsc_queue.rs:23-29 | Keeps the newest `capacity` entries, counts a displacement and reports it |
| DoubleBuffer.Buffer.Pop | base/src/mpsc_queue.rs:40-42 | Takes the oldest entry; none only when empty |
| DoubleBuffer.Buffer.DrainWriterToReader | base/src/double_buffer.rs:142-156 | Without a concurrent push the read buffer ends as the last min(capacity, read+write) elements of read ++ write, counts what it lost, and ends with everything it moved |
| DoubleBuffer.Buffer.Store | base/src/double_buffer.rs:149-153 | Makes room from the front, counting each eviction, then appends |
| DoubleBuffer.Buffer.PopFront | base/src/double_buffer.rs:41-43 | Takes the oldest element of the read buffer |
| DoubleBuffer.Buffer.PopBack | base/src/double_buffer.rs:45-47 | Removes the newest element of the read buffer, if any |
| DoubleBuffer.Buffer.Clear | base/src/double_buffer.rs:160-163 | Empties both queues |
| DoubleBuffer.MoveKeepsWindow | base/src/double_buffer.rs:147-155 | One turn of the drain loop does not change the window that the whole drain leaves |
| DoubleBuffer.RunKeepsOrderAndElements | base/src/double_buffer.rs:142-163 | Over every interleaving, delivered ++ read ++ write is in push order and every pushed element is in exactly one place |
| DoubleBuffer.PushedAreAccountedFor | base/src/mpsc_queue.rs:23-42 | pushed = writer drops + reader drops + consumed + cleared + still buffered |
| DoubleBuffer.ContendedDrainKeepsMoved | base/src/double_buffer.rs:142-156 | Whatever is pushed during a drain, the read buffer ends with everything that drain moved |
| BatchExecution.RunPreparedBatch | simulation_executor/src/callback_execution.rs:65-116 | For every positive worker count the split, join and re-sort give the ordered results, or the lowest-position failure, of running the jobs one after the other |
| BatchExecution.Split | simulation_executor/src/callback_execution.rs:73-77 | Each chunk holds exactly the positions of its residue, each once |
| BatchExecution.RunChunks | simulation_executor/src/callback_execution.rs:78-110 | The joined results hold each position's result exactly once |
| BatchExecution.SortsByPosition | simulation_executor/src/callback_execution.rs:111-111 | Results that hold each position once are sorted back into job order |
| BatchExecution.ExecuteCallbackBatch | simulation_executor/src/callback_execution.rs:32-60 | Publishes every executed callback in order on success and nothing otherwise |
| BatchExecution.BatchMeans | simulation_executor/src/callback_execution.rs:32-60 | Success means every ready body succeeded and the batch validated; a body failure reported is the first one in order |
| BatchExecution.SequentialMeans | simulation_executor/src/callback_execution.rs:112-116 | The sequential reference: all results, or the first failure with all earlier bodies successful |
| SimulationOccupancy.RunKeepsOccupancy | simulation_executor/src/state.rs:431-439 | Over every run and at every simulated time, the callbacks whose interval contains it never exceed their pool's threads, and no callback starts before its previous interval ended |
| SimulationOccupancy.FreeThreadsNeverNegative | simulation_executor/src/state.rs:431-439 | The subtraction in `free_threads` never underflows |
| SimulationOccupancy.StepKeepsOccupancy | simulation_executor/src/state.rs:465-545 | A step, failed or not, keeps the occupancy accounting |
| SimulationSelection.SelectionTakesSmallest | simulation_executor/src/state.rs:465-480 | In every pool the selection is the longest affordable front of the ready nodes ranked by (ready since, index) |
| SimulationSelection.SelectionIsSound | simulation_executor/src/state.rs:465-480 | Selected nodes are distinct and ready |
| SimulationSelection.SelectsWhenRunnable | simulation_executor/src/state.rs:546-551 | Something is selected exactly when some ready node's pool has a free thread |
| SimulationTime.RunIsOnTime | simulation_executor/src/state.rs:441-462 | Over every run time is monotone, no pending action is in the past, every action ran at exactly its time, and actions ran in order of time and insertion |
| SimulationTime.ActionsKeepTimely | simulation_executor/src/state.rs:443-462 | The action loop terminates, runs exactly the actions due now, and leaves only later ones |
| SimulationTime.AdvanceStopsAtAction | simulation_executor/src/state.rs:552-562 | Time advances to the next event and never past the first pending action |
| SimulationTime.StepStaysBelow | testing/src/unit_test_executor.rs:196-212 | A step below a pending boundary starts its batch below it, does not pass it and keeps it pending |
| SimulationProgress.StepMakesProgress | simulation_executor/src/state.rs:546-578 | If available inputs are ready once updated, every successful step executes a callback, advances the time or reports idle |
| SimulationProgress.StepHangsNowhere | simulation_executor/src/state.rs:546-578 | Whatever arrives during it, a successful step executes a callback, advances the time, reports idle or leaves a callback runnable |
| SimulationProgress.TwoStepsMakeProgress | simulation_executor/src/state.rs:465-578 | Whenever input arrives: of two successive successful steps the first executes, advances the time or is idle, or the second executes |
| SimulationProgress.RequestsAreNotLost | simulation_executor/src/state.rs:409-429 | While timers are on, a step that does not execute a callback leaves it requested if it was requested, notified or due, and no deadline passes without a request |
| SimulationProgress.IdleStaysIdle | simulation_executor/src/state.rs:563-578 | After idle, any number of steps without outside input execute nothing, keep the whole session and stay idle |
| SimulationProgress.RefreshTwice | simulation_executor/src/state.rs:409-429 | A refresh without news changes nothing |
| SimulationState.State.InsertAction | simulation_executor/src/state.rs:248-265 | Refuses a failed session, a past time and an exhausted sequence; otherwise inserts in key order |
| SimulationState.State.RunDueActions | simulation_executor/src/state.rs:443-462 | The action loop, proved equal to the recursive definition |
| SimulationState.State.Refresh | simulation_executor/src/state.rs:409-429 | Every node is refreshed from its own observation and nothing else |
| SimulationState.State.FreeThreads | simulation_executor/src/state.rs:431-439 | Threads of each pool less its busy nodes |
| SimulationState.State.ChooseBatch | simulation_executor/src/state.rs:473-480 | The greedy loop takes a candidate exactly while its pool has a thread left |
| SimulationState.State.SelectBatch | simulation_executor/src/state.rs:465-480 | Candidates, sorted and chosen as ranked |
| SimulationState.State.RankSelected | simulation_executor/src/state.rs:481-485 | Each selected node gets its position and leaves the ready list, nobody else |
| SimulationState.State.AssembleBatch | simulation_executor/src/state.rs:486-492 | Collecting by index and sorting by rank restores the order of selection |
| SimulationState.State.ApplyTimings | simulation_executor/src/state.rs:540-545 | Executed nodes get their finish time and next deadline |
| SimulationState.State.NextEvent | simulation_executor/src/state.rs:552-559 | The earliest busy end, deadline or action after now |
| SimulationState.State.SettleStep | simulation_executor/src/state.rs:546-571 | The end of a step, proved equal to `Settle` |
| SimulationState.State.StepInner | simulation_executor/src/state.rs:441-579 | The whole step, proved equal to the function the theorems are about |
| SimulationState.State.Step | simulation_executor/src/state.rs:353-363 | A failed step poisons the session; the invariants hold in any case |
| SimulationState.WithConfig | simulation_executor/src/state.rs:111-215 | Succeeds exactly for a sound configuration; otherwise reports the first callback's problem |
| SimulationState.UnitTestExecutor.StepBelow | testing/src/unit_test_executor.rs:134-161 | Fixture inputs and one step stay below a pending boundary action; a failure poisons the executor |
| SimulationState.UnitTestExecutor.RunUntil | testing/src/unit_test_executor.rs:196-212 | On success the time is exactly `until`; in any case every batch started strictly before it and time never passed it |
| ExecutionRecorder.Recorder.Invoke | task/src/callback.rs:198-260 | An invocation whose body ran leaves exactly one record attempt with the outcome that befell it; one that never ran leaves none; a committed record lists a prefix of the headers stamped |
| ExecutionRecorder.Recorder.Run | task_graph/src/execution_log.rs:328-372 | Leaves an open record that a panic, error or cancellation finds with the right outcome |
| ExecutionRecorder.Recorder.FlushOutputs | task_graph/src/execution_log.rs:373-395 | Records the outputs before they are published and completes the record if publication does not panic |
| ExecutionRecorder.Recorder.DiscardOutputs | task_graph/src/execution_log.rs:396-409 | Publishes a record still open, without outputs unless its commit panicked |
| ExecutionRecorder.Recorder.PublishRecord | task_graph/src/execution_log.rs:206-217 | Counts a record that finds no room |
| ExecutionRecorder.Recorder.VisitPending | task/src/publisher.rs:269-279 | Visits, output by output, exactly the headers that a flush at that time stamps |
| ExecutionRecorder.Recorder.FlushPublisher | task/src/publisher.rs:282-320 | Stamps time, publisher index and position on each pending message, up to a panic |
| ExecutionRecorder.TruncationShows | task_graph/src/execution_log.rs:376-388 | That the counter is zero exactly for a complete record holds if and only if the number of lost entries is zero or no multiple of 65536 |
| ExecutionRecorder.TruncationCanHide | task_graph/src/execution_log.rs:376-388 | 65552 messages leave a record that looks complete and is not |
| ReplayLog.Log.Finish | exact_replay_executor/src/replay_log.rs:199-254 | Sorts the executions by time and accepts or rejects with the error of the first failing check |
| ReplayLog.Log.FinishRecord | exact_replay_executor/src/replay_log.rs:202-254 | The checks of one record, message by message |
| ReplayLog.FindEndpoint | exact_replay_executor/src/replay_log.rs:171-198 | The first data endpoint of that direction and ordinal |
| RecordedLogs.RecorderWritesWellRecorded | task_graph/src/execution_log.rs:373-395 | Every committed record in full mode, truncated or not, has the headers that `finish` demands |
| RecordedLogs.FinishAcceptsExactly | exact_replay_executor/src/replay_log.rs:199-254 | A log of such records passes if and only if no output endpoint is listed by two executions with the same timestamp, in whatever order they are logged |
| RecordedLogs.OutputsPass | exact_replay_executor/src/replay_log.rs:216-252 | The output checks of a well recorded execution fail only on an identity produced before |
| RecordedLogs.IdentityTellsEndpoint | exact_replay_executor/src/replay_log.rs:76-100 | Under an accepted descriptor a publication identity tells callback, output and time |
| RecordedLogs.ListsWhatFits | task_graph/src/execution_log.rs:376-388 | A record lists an output if and only if the output published and fewer than 16 messages of other outputs came before its first |
| RecordedLogs.FinishAcceptsRun | exact_replay_executor/src/replay_log.rs:199-254 | The recorder's log of any run passes if and only if no output endpoint publishes at one time in two executions, within the first 16 messages of both |
| RecordedLogs.FinishAcceptsUntruncatedRun | exact_replay_executor/src/replay_log.rs:199-254 | If no execution sends more than 16 messages, the log passes if and only if no output publishes twice at one time |
| RecordedLogs.TruncationHidesClash | exact_replay_executor/src/replay_log.rs:199-254 | Two executions at one time publish on the same output and still do not clash |
| ExactReplay.Executor.Run | exact_replay_executor/src/replay.rs:294-297 | The report is exact if and only if every record was consumed and reproduced; under Strict an unstopped run that returns Ok is exact |
| ExactReplay.Executor.Step | exact_replay_executor/src/replay.rs:255-293 | Consumes one record unless failed, stopped or done; any failure poisons the replay and is counted |
| ExactReplay.Executor.Execute | exact_replay_executor/src/replay.rs:329-586 | Returns Ok without a new error if and only if inputs, events and outputs matched; under Strict any error ends the replay |
| ExactReplay.Executor.Prepare | exact_replay_executor/src/replay.rs:338-439 | Goes on without an error if and only if the record is untruncated and the prepared snapshot is the recorded one |
| ExactReplay.Executor.CompareEndpoint | exact_replay_executor/src/replay.rs:462-579 | One endpoint: attribution, translated headers, count, logged bodies and storage of what was reproduced |
| ExactReplay.Executor.CompareOutputs | exact_replay_executor/src/replay.rs:496-561 | Matches if and only if the outputs agree one for one in count and header, and in body on logged channels |
| ExactReplay.DifferingInput | exact_replay_executor/src/replay.rs:413-421 | Finds a differing input if and only if the snapshots differ: the smallest ordinal among the prepared messages that differs, otherwise the smallest among the recorded ones |
| ExactReplay.FaithfulReproduces | exact_replay_executor/src/report.rs:214-218 | What an exact report says about each record: untruncated, same prepared inputs and events, same outputs |
| ExactReplay.Report.RecordGap | exact_replay_executor/src/report.rs:144-146 | A gap counts for its channel and rules out exactness |
| ExactReplay.Report.RecordMismatch | exact_replay_executor/src/report.rs:148-153 | A mismatch counts for its channel and rules out exactness |
| ExternalSort.Merge | logging/src/sorted_log_stream.rs:130-152 | The two-headed merge loop, proved equal to the recursive merge |
| ExternalSort.MergeOfSorts | logging/src/sorted_log_stream.rs:130-152 | Merging the stable sorts of two adjacent stretches, in either argument order, is the stable sort of both |
| ExternalSort.Spill | logging/src/sorted_log_stream.rs:120-129 | A chunk in log order sorted by (time, position) is its stable sort by time |
| ExternalSort.AddRun | logging/src/sorted_log_stream.rs:153-165 | Adding the next chunk keeps the binary hierarchy |
| ExternalSort.LevelHoldsPower | logging/src/sorted_log_stream.rs:153-165 | An occupied level i holds 2^i full chunks, apart from the partial chunk at the end |
| ExternalSort.SortRun | logging/src/sorted_log_stream.rs:166-187 | For every batch size of at least one the hierarchy yields the stable sort by time; nothing for an empty input |
| LogStream.FromReader | logging/src/sorted_log_stream.rs:215-299 | Yields exactly the stable time-sort of the messages, through the hierarchy or the already-sorted shortcut, or the first error of the input |
| LogStream.FromEntries | logging/src/sorted_log_stream.rs:303-324 | The same stable time-sort in memory, or the first invalid entry, or an artifact that is not JSON |
| LogStream.Reader.NextEntry | logging/src/sorted_log_stream.rs:384-391 | Takes the first of what is still to be read |
| LogStream.Reader.ReadUntil | logging/src/sorted_log_stream.rs:392-404 | Takes everything up to the time and tells the time of what follows |
| LogStream.ReadsPartition | logging/src/sorted_log_stream.rs:392-404 | Successive reads partition the sorted stream: nothing lost, repeated, reordered, early or late |
| StableSort.SortIsStable | logging/src/sorted_log_stream.rs:316-316 | The reference sort is sorted and keeps the order of equals |
| StableSort.StableSortIsUnique | logging/src/sorted_log_stream.rs:316-316 | There is only one stable sort of a sequence |
| ReplayFeed.Feed.InjectDueWhile | logging/src/replay_feed.rs:187-232 | Whatever interrupts it, delivered ++ remaining stays the selected log; uninterrupted it delivers exactly what is due and returns a strictly later time, or None only at the end |
| ReplayFeed.Feed.Advance | logging/src/replay_feed.rs:113-175 | Skips to the next selected entry without losing one |
| ReplayFeed.Feed.Deliver | logging/src/replay_feed.rs:206-224 | Delivers the pending entry once |
| ReplayFeed.NewFeed | logging/src/replay_feed.rs:90-103 | A new feed has delivered nothing and has the whole selected log to come |
| ReplayFeed.TakeEntry | logging/src/replay_feed.rs:115-172 | Taking an entry off the log keeps what is to come, whether it is skipped or selected |

## Left out

- Live scheduler and arena: modelled as step functions on values, not as classes, because each theorem ranges over interleavings of many threads; update in place is the fold over steps.
- Weak memory orderings, wrap-around of `usize` counters and wall-clock time: steps are sequentially consistent, counters unbounded; a drain's timeout is the choice to give up.
- Deadlines of live timers: which node is due is chosen freely at each dispatch, so every deadline behaviour is covered but not related to a clock; periodic re-arming is not modelled.
- Subscriber policies in the live scheduler: an input is required or not and triggers or not; only the lengths of its queues are modelled.
- Inputs and messages of the double buffer: an element is its position in the order of pushes.
- iceoryx2 transport everywhere: data, events, polling and readiness; event lists occur only as opaque values in exact replay.
- `Arena::update_capacity` and `reallocate_slots` on a used arena: they need exclusive access; only the rebuilt free list is modelled, as a new arena.
- StorageBudget.RetainedBudgetSuffices: sufficient only; StorageRace.SafeExactly is the exact condition.
- StorageRace.SafeExactly: every other publisher of the channel may push to every subscriber; that some of them are restricted to fewer subscribers is not modelled. Plans with a zero capacity are refused before they are used and excluded here.
- Restricting subscribers to some publishers: `restrict_subscriber_sources` appears as the `connected` flags; its key checks and `bind`/`take_*` do not.
- ForwardingBudget.GraphPlan.Budget: says nothing about the channels after a failure, which abandons the plan.
- Simulation: step counter, callback names, `run_until_idle`, panics outside callback bodies; what a failed step leaves behind is only used to show that it is poisoned.
- SimulationState.UnitTestExecutor.StepBelow: states `try_step` under a pending boundary action, the situation of `run_until`.
- SimulationProgress.StepMakesProgress: assumes that nothing arrives during a step in which nobody publishes; SimulationProgress.TwoStepsMakeProgress covers input that arrives between the refreshes of one step.
- Recorder: body durations, event records and event lists; mode Off, which wraps nothing.
- ReplayLog.Log.Finish: the checks of event ordinals are left out, and so are `push` and `descriptor`; what `descriptor` accepts is the predicate `SoundDescriptor`.
- ExactReplay.Executor.Execute: structured details of gaps and mismatches, the set-up checks of `with_config`; a panic is modelled where the body runs.
- Report: totals and the reproduction ratio, which are sums over the same counters.
- Sorted log stream: JSON, temporary files, I/O errors and the overflow of the entry count; runs are sequences.
- LogStream.FromEntries: which texts are JSON is a parameter.
- ReplayFeed.NewFeed: the checks of sources, descriptor and incompleteness in `new`.
- live_replay_executor, topology printing, task_macros, interning, static vectors: easy or formatting.
