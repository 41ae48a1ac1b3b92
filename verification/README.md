# LingxiGraph, verified

A Dafny model of the parts of LingxiGraph whose correctness does not show in any single function: the durable
superstep engine, durable steering, the projection of a message history into a model request, and five self-contained
algorithms. Statements hold for all graphs, inputs, histories, schedules or runs of the model. The exceptions are the
counterexamples, each about one concrete graph or sequence of operations: `Supersteps.HashedNamesCollide`,
`Steering.LateRowBreaksOrder`, and the members of ExitCounterexamples, WindowExample, TurnExample and
ReachabilityExamples.

## How it is organised

| file | what it models |
|---|---|
| Prelude, Channels | Python values; channels and the merge of task updates |
| Interrupts, Suspension | questions asked by node bodies, replay by call index, and the coroutines they stand for |
| Supersteps, Execution | one superstep as functions with the loops that compute them; `_run` as a class whose every method is a trace of durable events |
| Durability, Transparency, Completion | crashes, failures, pauses and restarts beside the run nothing disturbs |
| StoredResults, CopyingWindow, WindowExample | what becomes of stored results, and exactly when a stored task runs again |
| Turns, TurnExample | a new input on a thread whose last run has ended |
| Scheduling | joins and deferral over whole runs |
| AsyncWriter, Checkpoints | the background checkpoint writer, the in-memory saver |
| ExitDurability, LevelledGraphs, ExitCounterexamples | exit durability: exactly when it is faithful, graphs on which it is, and graphs on which it is not |
| Steering, Repository, Finalization, Worker, DeliveryProofs | the steering inbox; the fenced repository calls; the worker's methods; all interleavings of workers, callers and leases |
| Messages, Tokens, History, RepairProofs, Hygiene, Compaction, CompactionProofs, Pipeline | the message reducer; repair, hygiene, compaction and their composition |
| Reachability, ReachableRuns, LiveRuns, ReachabilityExamples | graph validation; what runs of the engine schedule, and which nodes some run does |
| Layering, ToolNode, Serialization, RoundTrips, CheckpointRows | the studio's layers, tool batching, the JSON form of state, stored checkpoints |

Code that updates state in place is a class or a loop here too, proved against a function of its inputs; the theorems
are about those functions. Node bodies are functions from the answers received so far to the next question or the
result, reducers and routing functions are arbitrary functions, checkpoint ids are never used twice, and digests of
different inputs differ. Automatic induction is switched off: every inductive proof spells out its recursion.

## What the proofs brought to light

- Exit durability. The id under which results are stored changes only when a checkpoint is saved, and under exit
  durability none is saved inside the loop (executor.py 1541-1565). A node that is scheduled again is therefore given
  its own earlier result (`ExitDurability.RepeatedIdIsStale`). A loop that counts to two never ends, and a graph without
  any cycle can end with a wrong state, because a node that two paths of different length reach runs twice
  (`ExitCounterexamples`). Every commit is handed the failure-free results exactly when every repeated task returns what
  it returned before (`ExitDurability.ExitIsFaithfulExactly`); a graph laid out in levels never repeats one
  (`LevelledGraphs`).
- The copying window. A pause is saved before the results of its finished siblings are copied under its id
  (executor.py 1389-1412). A crash in between loses them (`StoredResults.EventKeepsPersisted`); a stored task runs again
  exactly when such a crash is followed by a restart of its superstep (`CopyingWindow.StoredTaskRerunsExactly`), and
  `WindowExample` is a run in which one does.
- New input on a finished thread. Until the turn saves a checkpoint, its results are stored under the last checkpoint of
  the turn before (executor.py 1021-1036). If it fails half way, the next turn is handed them, whatever its own input
  (`TurnExample.NextTurnIsStale`); `Turns.TurnFedExactly` says when that is harmless.
- Results are stored after all tasks of a superstep have finished or failed (executor.py 1351-1360), not as each one
  finishes, so a crash during the superstep loses them all; the model follows the code.
- Task ids. Two tasks of a superstep can share an id exactly when some node name equals `node#index` for a node of the
  graph (`Supersteps.IdsDistinctExactly`); the builder accepts such names. A `#` elsewhere in a name does no harm. The recovery
  theorems ask for graphs without such names.
- Reachability asks for all sources even of an 'any' edge (builder.py 284-290). It can refuse a graph all of whose nodes
  run (`ReachabilityExamples.AnyJoinIsRefused`); `ReachableRuns.CheckIsExact` says when it does not. The executor does
  not hold nodes to their declared destinations, nor sends to path maps, so an undeclared jump runs a node no rule
  reaches (`UndeclaredJumpEscapes`); `StaysInsideExactly` says when a run stays inside. And a deferred node of an
  accepted graph may never run (`DeferredNeverRuns`); without deferral, or where nothing leads back, every accepted node
  can (`LiveRuns`).
- `keep_recent_tool_results = 0` keeps every tool result in full (`Hygiene.KeepNoneKeepsAll`).
- A dict with a `__type__` key may not survive being stored, and a frozenset inside a set never does
  (`RoundTrips.RoundTrip` has the exact condition).
- Drains are in order exactly as long as each arriving row is numbered above what was drained before it and unlike what
  still waits (`Steering.DrainsAscendExactly`): rows that wait together may arrive in any order. With the repository's
  numbering and a fresh channel per attempt this holds (`DeliveryProofs.AckedIsConsumed`).

## Model

| member | source | states |
|---|---|---|
| Channels.MergeChannel | src/lingxigraph/channels.py:33-105 | the `merge` loops of all four channel kinds compute the specified fold, error cases included |
| Channels.Merge | src/lingxigraph/channels.py:150-178 | the merge loop collects writes per key and merges each declared channel; a write to an undeclared key fails |
| Channels.MergeSlotsPointwise | src/lingxigraph/channels.py:150-178 | channels do not interfere: a merge succeeds iff every channel does, each key gets its own channel's result and undeclared keys keep their value |
| Channels.SplitsExactlyWhenAccumulating | src/lingxigraph/channels.py:33-105 | a channel cannot tell one batch of writes from two iff it is a reducer or an accumulating topic |
| Channels.MergeSplits | src/lingxigraph/channels.py:150-178 | merging us ++ vs in one superstep equals merging us and then vs, with replacements and missing values |
| Channels.ReducePermuted | src/lingxigraph/channels.py:54-66 | a left-commutative reducer with a present value gives every permutation of the writes the same result |
| Channels.MergePermuted | src/lingxigraph/channels.py:150-178 | the merged state does not depend on the order of the parallel tasks' updates |
| Interrupts.InterruptContext.Ask | src/lingxigraph/types.py:188-208 | `interrupt` answers by call index from the recorded values, or raises a marker numbered by that index; the index advances by one |
| Interrupts.Attempt | src/lingxigraph/graph/executor.py:1967-2036 | retries after transient exceptions are invisible: the outcome is that of one undisturbed execution unless every attempt raised |
| Interrupts.ReplayFrom | src/lingxigraph/types.py:188-208 | running a body again from its start with the recorded answers leads to where the last question was asked |
| Interrupts.DeliverResume | src/lingxigraph/graph/executor.py:1798-1818 | a resume value answers each named question, or else the first pending one |
| Suspension.DeliverAddsOne | src/lingxigraph/graph/executor.py:1798-1818 | a resume value gives each task at most one more answer, and only a task that is waiting |
| Suspension.ResumeKeepsFaithful | src/lingxigraph/graph/executor.py:1384-1413 | pause, stored results and resume keep the engine in step with suspended coroutines |
| Suspension.ReplayEqualsSuspension | src/lingxigraph/graph/executor.py:1384-1413 | over any number of questions in any number of parallel tasks, re-execution with recorded answers gives the outcomes of coroutines suspended in place |
| Suspension.FinishedSiblingsAreNotRerun | src/lingxigraph/graph/executor.py:1228-1268 | a sibling that finished before a pause is not executed again after the resume |
| Suspension.ResumeAnswersExactly | src/lingxigraph/graph/executor.py:1798-1818 | a single answer lowers the number of open questions by exactly one, a dictionary by its number of entries |
| Suspension.WaitingMeansUnanswered | src/lingxigraph/types.py:188-208 | a task waits iff one of its questions is still open |
| Suspension.FreshSessionIsFaithful | src/lingxigraph/graph/executor.py:949-1001 | a superstep that has not run starts with nothing stored and nothing answered |
| Supersteps.IdsDistinctExactly | src/lingxigraph/graph/executor.py:1737-1751 | every superstep that can be planned has distinct task ids iff no node name equals `node#k` for a registered node and an index k |
| Supersteps.TaskIdsDistinct | src/lingxigraph/graph/executor.py:1737-1751 | one direction, for a single schedule: with unambiguous node names its task ids are distinct |
| Supersteps.ClashCollides | src/lingxigraph/graph/executor.py:1737-1751 | the other: for each node whose k-th delivery id is a node name, a schedule in which two tasks of different nodes share an id |
| Supersteps.HashedNamesCollide | src/lingxigraph/graph/executor.py:1737-1751 | one graph, a and a#0, with such a superstep; and one, a and a#b, whose names hold a `#` and are unambiguous |
| Supersteps.AdvanceEdge | src/lingxigraph/graph/executor.py:1486-1502 | one edge: when it fires and what join progress it keeps, as it survives `_serialize_join_progress` |
| Supersteps.AdvanceEdges | src/lingxigraph/graph/executor.py:1486-1502 | the loop over the edges: targets fired and join progress of the whole graph |
| Supersteps.RouteConditionals | src/lingxigraph/graph/executor.py:1504-1527 | the loop over the conditional edges: routed targets, unmapped routes fail |
| Supersteps.CommitStep | src/lingxigraph/graph/executor.py:1449-1538 | one commit: merge, versions, edges, routes, jumps, target normalisation and release of deferred nodes |
| Scheduling.HistoryIsReference | src/lingxigraph/graph/executor.py:843-1735 | the supersteps of a failure-free run are the reference run |
| Scheduling.AllJoinConserves | src/lingxigraph/graph/executor.py:1486-1502 | an 'all' edge: firings plus progress never exceed the supersteps that completed a source plus what an earlier turn left over, and progress stays a proper part of the sources |
| Scheduling.ProgressIsSinceLastFiring | src/lingxigraph/graph/executor.py:1486-1502 | join progress is exactly the sources completed since the edge last fired; before it first fires in a later turn, also those the turn before left over |
| Scheduling.AnyJoinFires | src/lingxigraph/graph/executor.py:1486-1502 | an 'any' edge fires in exactly the supersteps that complete one of its sources and keeps no progress |
| Scheduling.FiringSchedulesTarget | src/lingxigraph/graph/executor.py:1486-1538 | the target of an edge that fires is scheduled next |
| Scheduling.DeferredRunAlone | src/lingxigraph/graph/executor.py:1109-1114 | a deferred node scheduled by name runs only beside such nodes and no deliveries |
| Scheduling.DeferredEventuallyRuns | src/lingxigraph/graph/executor.py:1534-1538 | a deferred activation runs in a later superstep before the run ends |
| Scheduling.EndsWithNothingDeferred | src/lingxigraph/graph/executor.py:1534-1538 | when a run has nothing left to do no node is left deferred |
| Scheduling.CompletedRunsDeferNothing | src/lingxigraph/graph/executor.py:957-978 | the same after crashes, pauses and restarts |
| Transparency.StepSound | src/lingxigraph/graph/executor.py:843-1735 | every event of a disturbed run keeps checkpoints, stored results and memory in step with the failure-free run |
| Transparency.FailureTransparency | src/lingxigraph/graph/executor.py:957-1036 | from the start of any turn of a thread, after any failures, crashes, pauses, resumes and restarts, a run with nothing left to do holds the state, join progress and versions with which the failure-free run of that turn ends |
| Transparency.EndIsUnique | src/lingxigraph/graph/executor.py:843-1735 | the failure-free run ends once, so all completed runs agree |
| Transparency.RestartIsOnTrack | src/lingxigraph/graph/executor.py:957-978 | every persisted checkpoint restores the failure-free run at one of its supersteps, whatever prefix of the writes was persisted |
| Transparency.CommitReachesReference | src/lingxigraph/graph/executor.py:1449-1538 | merging the results of superstep k reaches the failure-free state before superstep k + 1 |
| Transparency.TasksRun | src/lingxigraph/graph/executor.py:1228-1268 | reused and fresh results together are those of the failure-free superstep |
| Completion.LiveCanFinish | src/lingxigraph/graph/executor.py:843-1735 | any execution between supersteps can be brought to its end by running the tasks and answering what they ask |
| Completion.CompletesExactlyWhenReferenceEnds | src/lingxigraph/graph/executor.py:843-1735 | however a run was disturbed, it can still complete iff the failure-free run ends, and then with the same final run state |
| StoredResults.EventKeepsPersisted | src/lingxigraph/graph/executor.py:1351-1413 | across one event no stored result is lost while the superstep stays the same, except exactly by a crash between saving a pause and copying the results under its id |
| StoredResults.StoredTasksAreNotRerun | src/lingxigraph/graph/executor.py:1228-1268 | with synchronous checkpoints a task whose result is stored is not executed again in that superstep as long as no crash hits that window since, whatever happened before |
| CopyingWindow.StoredTaskRerunsExactly | src/lingxigraph/graph/executor.py:1384-1413 | over any continuation of any run: a task with a stored result is executed again in its superstep iff a crash hits that window and the superstep is entered again after it |
| CopyingWindow.LostTasksRunAgain | src/lingxigraph/graph/executor.py:1384-1413 | the first restart after such a crash executes every task of the superstep |
| WindowExample.StoredTaskRunsAgain | src/lingxigraph/graph/executor.py:1384-1413 | one run from an empty thread: one entry node asks, the other returns and is stored, the process dies before the copy, and the answer executes the stored one again |
| Turns.NextTurnBegins | src/lingxigraph/graph/executor.py:1003-1036 | the checkpoint a turn ends with has no results stored under its id and leaves nothing deferred, so that the next turn begins as on a fresh thread |
| Turns.SameInputIsTransparent | src/lingxigraph/graph/executor.py:1003-1036 | a turn tried again with an input that merges to the same state is transparent, whatever was stored by the tries before and whatever happens next |
| Turns.TurnFedExactly | src/lingxigraph/graph/executor.py:1003-1036 | where no task asks, the first superstep of a turn hands its commit the failure-free results iff each of its task ids with a result stored by an earlier try has the one it would return now |
| TurnExample.NextTurnIsStale | src/lingxigraph/graph/executor.py:1021-1036 | one graph: a turn fails half way, and the next, with any other input, commits a result of the first |
| Execution.Run.Superstep | src/lingxigraph/graph/executor.py:1109-1573 | one pass of the loop is a trace of durable events |
| Execution.Run.Pause | src/lingxigraph/graph/executor.py:1384-1413 | the pause branch: checkpoint, then results copied under its id |
| Execution.Run.MergeResults | src/lingxigraph/graph/executor.py:1449-1565 | the commit branch, ending in the saved checkpoint; nothing changes when it fails |
| Execution.Run.Restore | src/lingxigraph/graph/executor.py:949-1036 | loading the latest checkpoint or entering the graph |
| Execution.Run.Invoke | src/lingxigraph/graph/executor.py:843-1735 | every invocation is a trace of durable events; a completed one has nothing scheduled |
| Execution.RunToEnd | src/lingxigraph/graph/executor.py:843-1735 | a completed invocation, with or without a truthful answer, after any earlier events of its turn, holds what the failure-free run ends with |
| AsyncWriter.Writer.Resume | src/lingxigraph/graph/executor.py:95-113 | a queued write is performed only after its predecessor succeeded |
| AsyncWriter.Writer.Flush | src/lingxigraph/graph/executor.py:111-113 | flush returns only once everything is written, and raises if something was not |
| AsyncWriter.AnySchedule | src/lingxigraph/graph/executor.py:95-113 | in any order of resumption the persisted checkpoints are a prefix of those enqueued; nothing is written after a failure |
| AsyncWriter.PersistedIsPrefix | src/lingxigraph/graph/executor.py:2290-2294 | along any events of a run persisted checkpoints stay; while the execution lives they are a prefix of those handed over, none of which is taken back, and after a failed write they do not grow |
| ExitDurability.FreshIdsAreUndisturbed | src/lingxigraph/graph/executor.py:1228-1268 | under exit durability a superstep whose task ids were never stored is the undisturbed one |
| ExitDurability.FedExactly | src/lingxigraph/graph/executor.py:1228-1268 | a superstep hands its commit the failure-free results iff each scheduled id that has a stored result has the one its task would return |
| ExitDurability.ExitIsFaithfulExactly | src/lingxigraph/graph/executor.py:1541-1565 | where no task asks, an exit-durable invocation hands every commit the failure-free results iff each task id scheduled again returns what it returned before; and then it is the failure-free run, step by step |
| ExitDurability.UnrepeatedIsFaithful | src/lingxigraph/graph/executor.py:1541-1565 | in particular an invocation none of whose task ids is scheduled twice is the failure-free run, step by step |
| LevelledGraphs.LevelledNeverRepeats | src/lingxigraph/graph/executor.py:1737-1751 | a condition on the graph alone: where every edge, route and jump leads from one level to the next, no node asks and none is deferred, no run schedules a task id twice |
| LevelledGraphs.LevelledIsFaithful | src/lingxigraph/graph/executor.py:1541-1565 | so to such a graph exit durability is faithful from every input |
| ExitDurability.RepeatedIdIsStale | src/lingxigraph/graph/executor.py:1228-1268 | under exit durability a task id scheduled again is given the result it stored before, whatever its input is |
| ExitCounterexamples.CounterNeverEnds | src/lingxigraph/graph/executor.py:1541-1565 | one looping graph, entered with any count n below one: the failure-free run ends after 2 - n supersteps; under exit durability, after any number of supersteps, it still holds n + 1 and schedules its node again |
| ExitCounterexamples.CounterStoresIt | src/lingxigraph/graph/executor.py:1541-1565 | from the entry of that graph, its first superstep stores the result every later one repeats |
| ExitCounterexamples.AcyclicIsUnfaithful | src/lingxigraph/graph/executor.py:1541-1565 | one graph without a cycle, entered with any count: the failure-free run adds one twice, the exit-durable invocation ends having added it once |
| Checkpoints.InMemorySaver.Put | src/lingxigraph/checkpoint/memory.py:38-61 | appends to the history of its thread and changes no other |
| Checkpoints.InMemorySaver.GetTuple | src/lingxigraph/checkpoint/memory.py:63-75 | the newest checkpoint of the thread, or the newest with the given id |
| Checkpoints.InMemorySaver.PutWrites | src/lingxigraph/checkpoint/memory.py:82-92 | stores each write under its task and index |
| Checkpoints.InMemorySaver.GetWrites | src/lingxigraph/checkpoint/memory.py:94-103 | the stored writes, each once, ordered by index and task |
| Checkpoints.WritesRoundTrip | src/lingxigraph/checkpoint/memory.py:82-103 | what a restart reads back by task is the latest batch, and the earlier writes of other tasks |
| Steering.SteeringChannel.Submit | src/lingxigraph/steering.py:161-203 | a new id is queued under the next sequence; a known one is answered without queueing |
| Steering.SteeringChannel.Ingest | src/lingxigraph/steering.py:205-220 | an event is queued iff its id was never seen |
| Steering.SteeringChannel.Drain | src/lingxigraph/steering.py:230-266 | empties the inbox in sequence order into the consumption log |
| Steering.SteeringChannel.AckConsumed | src/lingxigraph/steering.py:302-320 | removes exactly the acknowledged entries from the log |
| Steering.InboxConserves | src/lingxigraph/steering.py:161-320 | after any operations: accepted = pending + drained, drained = acked + logged, as multisets |
| Steering.DrainedOnce | src/lingxigraph/steering.py:230-266 | no event is drained twice |
| Steering.AckKeepsLaterDrains | src/lingxigraph/steering.py:289-320 | acknowledging what a peek returned leaves what was drained since, in order |
| Steering.DrainsAscendExactly | src/lingxigraph/steering.py:205-266 | after any operations all drains together, with the one that would come next, are strictly increasing iff they were before and each newly ingested event is numbered above everything already drained and unlike everything pending |
| Steering.DrainsAscend | src/lingxigraph/steering.py:205-266 | in particular if every newly ingested event is numbered from the next sequence on |
| Steering.LateRowBreaksOrder | src/lingxigraph/steering.py:205-266 | one sequence of operations that fails the condition: a row numbered below one that was drained before it arrived |
| Repository.InMemoryRepository.CloseSteering | src/lingxigraph/server/repository.py:634-688 | fenced on lease owner and attempt; closes admission |
| Repository.InMemoryRepository.CommitSteeringConsumptionsIfOwned | src/lingxigraph/server/repository.py:1229-1321 | fenced; marks exactly the given rows consumed |
| Repository.InMemoryRepository.FinishRunIfOwned | src/lingxigraph/server/repository.py:419-485 | fenced; sets the status, cancellation winning, and drops the lease |
| Repository.InMemoryRepository.RetryRunIfOwned | src/lingxigraph/server/repository.py:541-632 | fenced; queues the run again with admission open |
| Repository.InMemoryRepository.FinalizeRunWithSteeringDispositionIfOwned | src/lingxigraph/server/repository.py:1025-1123 | fenced; supersedes what is pending and finishes, in one step |
| Finalization.Attempt.SyncSteeringIn | src/lingxigraph/server/worker.py:767-786 | every pending row is ingested; an event of module Worker |
| Finalization.Attempt.SyncSteeringOut | src/lingxigraph/server/worker.py:788-838 | peek, commit, and only then acknowledge; a failed or fenced commit changes nothing; a trace of worker events |
| Finalization.Attempt.FinalSteeringFlush | src/lingxigraph/server/worker.py:639-726 | returns success only with an empty log committed under the lease; otherwise nothing changed; delays double up to the cap; a trace of worker events |
| Finalization.Attempt.RetryOrDeadLetter | src/lingxigraph/server/worker.py:544-613 | retry while attempts remain, else dead-letter; nothing without the lease; an event of module Worker |
| Finalization.Attempt.Finalize | src/lingxigraph/server/worker.py:282-412 | close, flush, then commit the intended outcome iff the flush succeeded; the whole end of an attempt is a trace of worker events |
| DeliveryProofs.StepSound | src/lingxigraph/server/worker.py:132-412 | every interleaved step of workers, callers and leases keeps the accounting of rows and channels |
| DeliveryProofs.RunKeepsRows | src/lingxigraph/server/worker.py:246-412 | over any interleaving no accepted row disappears, and consumed or superseded rows stay so |
| DeliveryProofs.AckedIsConsumed | src/lingxigraph/server/worker.py:788-838 | every locally acknowledged id is durably consumed, and drains come out once and in acceptance order |
| DeliveryProofs.PendingRowsAreHeld | src/lingxigraph/server/worker.py:767-786 | a pending row a channel knows waits in its inbox or its consumption log |
| DeliveryProofs.NextAttemptRecovers | src/lingxigraph/server/worker.py:152-158 | the next attempt's channel receives every unconsumed row, also those drained without a commit |
| DeliveryProofs.RetryHandsOver | src/lingxigraph/server/worker.py:268-282 | a delivery that hands the run back leaves every row as it is and admission open, and the next worker to claim it holds each pending row in its channel |
| DeliveryProofs.FlushedIsConsumed | src/lingxigraph/server/worker.py:309-376 | after the flush everything the channel drained is consumed, and no superseded row was drained |
| DeliveryProofs.DispositionSettles | src/lingxigraph/server/worker.py:335-373 | a run finalized through the disposition path is terminal, with no pending row and nothing drained but unconsumed |
| DeliveryProofs.CancellationWins | src/lingxigraph/server/repository.py:419-485 | once a run is being cancelled, no interleaving shows it in any status but cancelling and cancelled |
| DeliveryProofs.TerminalIsFinal | src/lingxigraph/server/worker.py:162-174 | under a terminal status, after any further events, neither the status nor a row has changed |
| DeliveryProofs.FencedForGood | src/lingxigraph/server/repository.py:296-374 | once a queued run is claimed, whatever happens afterwards no earlier attempt owns it again, and no step of one changes anything durable |
| Messages.AddMessages | src/lingxigraph/messages.py:153-179 | with its positions table, which agrees with the list throughout, the reducer is the plain upsert, remove and clear fold, for any left list |
| Messages.IdsStayUnique | src/lingxigraph/messages.py:153-179 | from a list with unique ids the result has unique ids |
| Messages.ReapplyChangesNothing | src/lingxigraph/messages.py:153-179 | applying again a right side that removes nothing and whose messages carry ids changes nothing |
| History.ProtocolIsWellFormed | src/lingxigraph/cache_first/history.py:66-69 | the block-by-block reading of the tool protocol is the positional one: each calling message followed by exactly its results, no other tool message |
| History.Collect | src/lingxigraph/cache_first/history.py:102-121 | the scan over results keeps the first per expected id and counts unknown and duplicate ones |
| History.RepairModelHistory | src/lingxigraph/cache_first/history.py:63-150 | the repair loops compute the specified output, counters and distinct diagnostics |
| RepairProofs.SiftKeepsFirsts | src/lingxigraph/cache_first/history.py:104-121 | per block, exactly the expected ids that occur are kept, once, and every other result is counted |
| RepairProofs.BlockIsWholeOrGone | src/lingxigraph/cache_first/history.py:123-139 | a block is kept whole, first results in call order, iff its calls are valid and all answered; otherwise it is dropped whole |
| RepairProofs.RepairedIsWellFormed | src/lingxigraph/cache_first/history.py:63-150 | whatever the history, the repaired one satisfies the protocol |
| RepairProofs.IdentityOnWellFormed | src/lingxigraph/cache_first/history.py:36-42 | repair is the identity on well-formed histories, and reports a change exactly on all others |
| RepairProofs.RepairIsIdempotent | src/lingxigraph/cache_first/history.py:63-150 | repairing twice is repairing once; the output is the input iff that was well-formed |
| RepairProofs.DroppedAreCounted | src/lingxigraph/cache_first/history.py:141-150 | output length + dropped count = input length |
| RepairProofs.PlainMessagesStay | src/lingxigraph/cache_first/history.py:79-87 | messages that neither call nor answer stay, in order |
| RepairProofs.OutputComesFromInput | src/lingxigraph/cache_first/history.py:132-139 | the output invents and repeats no message |
| Hygiene.ApplyHygiene | src/lingxigraph/cache_first/history.py:287-328 | the hygiene loops compute the specified projection |
| Hygiene.TrimResults | src/lingxigraph/cache_first/history.py:313-327 | the backward loop over result positions is the specified budget fold |
| Hygiene.HygieneKeepsProtocol | src/lingxigraph/cache_first/history.py:287-328 | hygiene keeps the protocol and every plain message in its place |
| Hygiene.EveryCallIsCapped | src/lingxigraph/cache_first/history.py:302-307 | after repair the arguments of every call are capped |
| Hygiene.CumulativeBudget | src/lingxigraph/cache_first/history.py:313-327 | result tokens stay within the larger of the cumulative budget and what the recent results take, plus sixteen per placeholder |
| Hygiene.KeepNoneKeepsAll | src/lingxigraph/cache_first/history.py:316-323 | keep_recent_tool_results = 0 selects every result, so nothing is trimmed |
| Compaction.CutBlocks | src/lingxigraph/cache_first/compaction.py:51-65 | the block loop computes the specified blocks |
| Compaction.BlocksFlatten | src/lingxigraph/cache_first/compaction.py:51-65 | cutting into blocks loses nothing |
| Compaction.KeepRecent | src/lingxigraph/cache_first/compaction.py:273-283 | the backward loop keeps the longest suffix of blocks within budget and number |
| Compaction.DropBlocks | src/lingxigraph/cache_first/compaction.py:317-332 | whole blocks are dropped oldest first, never one with the latest user message, until the first candidate that fits |
| Compaction.CompactWithSummary | src/lingxigraph/cache_first/compaction.py:225-388 | the history as it is, or the first in the order of preference that fits; a failure only when none does |
| Compaction.Compact | src/lingxigraph/cache_first/compaction.py:135-169 | the synchronous path, refused only by a callback that raises or must be awaited |
| Compaction.CompactAsync | src/lingxigraph/cache_first/compaction.py:171-223 | a failing summarizer costs its summary, not the request |
| CompactionProofs.BlocksAreGood | src/lingxigraph/cache_first/compaction.py:51-65 | no tool block of a well-formed history is ever cut |
| CompactionProofs.CompactionIsSafe | src/lingxigraph/cache_first/compaction.py:225-388 | compaction keeps the tool protocol and the limit, and leaves alone what needs no compaction |
| CompactionProofs.CompactedShape | src/lingxigraph/cache_first/compaction.py:295-372 | a compacted history is an optional summary, blocks of the latest user message and a suffix of the blocks |
| CompactionProofs.LatestIsShown | src/lingxigraph/cache_first/compaction.py:284-293 | the latest user message is always sent, possibly shortened |
| Pipeline.WithoutDuplicatePrefix | src/lingxigraph/cache_first/wrapper.py:231-242 | the prefix is cut off iff the history starts with messages equivalent to it |
| Pipeline.HygieneAfterRepair | src/lingxigraph/cache_first/wrapper.py:271-272 | hygiene of a repaired history is hygiene of the history |
| Pipeline.Prepare | src/lingxigraph/cache_first/wrapper.py:270-280 | end to end: the dynamic suffix satisfies the tool protocol, nothing is altered without need, and the limit holds or a diagnostic says why not |
| Reachability.Reach | src/lingxigraph/graph/builder.py:277-309 | the loop ends with the least set closed under the reachability rules |
| Reachability.Validate | src/lingxigraph/graph/builder.py:228-314 | a graph is accepted iff endpoints, entry and interrupts are registered and every node is in the least set; else exactly the others are named |
| ReachableRuns.StaysInsideExactly | src/lingxigraph/graph/executor.py:1777-1795 | whatever nodes return and wherever they route, a run schedules nothing outside a set closed under the rules by which edges fire iff every route and jump it takes leads inside |
| ReachableRuns.RunStaysInside | src/lingxigraph/graph/builder.py:278-309 | a disciplined run, whose nodes jump where they declare and whose sends keep to the path maps, schedules and runs nothing outside such a set |
| ReachableRuns.UnreachableNeverRuns | src/lingxigraph/graph/builder.py:310-314 | without 'any' joins a node called unreachable is never a task of a disciplined run |
| ReachableRuns.CheckIsExact | src/lingxigraph/graph/builder.py:284-290 | validation reaches the whole closure under the rules by which edges fire iff every 'any' edge with a reached source has a reached target |
| LiveRuns.LiveExactly | src/lingxigraph/graph/builder.py:278-309 | where nothing is deferred or nothing leads back, that closure is exactly the set of nodes executed by some disciplined run of some graph with the same edges, path maps and destinations |
| LiveRuns.AcceptedCanRun | src/lingxigraph/graph/builder.py:310-314 | every node of an accepted graph is executed by some disciplined run, if nothing is deferred or no edge, route or declared jump leads back |
| ReachabilityExamples.AnyJoinIsRefused | src/lingxigraph/graph/builder.py:284-290 | one graph: validation refuses two nodes, and a run from its entry schedules both in turn |
| ReachabilityExamples.UndeclaredJumpEscapes | src/lingxigraph/graph/executor.py:2195-2218 | one graph: a jump to a registered node that was never declared takes a run outside both closures |
| ReachabilityExamples.DeferredNeverRuns | src/lingxigraph/graph/executor.py:1109-1114 | one accepted graph in which a deferred node leads to itself: in no disciplined run of any graph of its shape does another deferred node run, or its successor get scheduled |
| Layering.RelaxOnce | src/lingxigraph/studio/studio.js:129-137 | one pass: layers stay lengths of walks and cover walks one edge longer |
| Layering.LayerOf | src/lingxigraph/studio/studio.js:117-142 | without cycles each layer is the longest path length, the end is last, and every edge leads to a later layer iff none starts at the end |
| ToolNode.OverlapIsAlone | src/lingxigraph/tools.py:249-256 | read-only calls that overlap in any schedule do not notice each other |
| ToolNode.BatchIsSequential | src/lingxigraph/tools.py:249-256 | a batch of read-only calls is the same calls one at a time |
| ToolNode.SequentialIsDeterminate | src/lingxigraph/tools.py:259-260 | run one at a time, the answers depend on no scheduler |
| ToolNode.RunCalls | src/lingxigraph/tools.py:236-260 | the batching loop equals sequential execution; each call runs once, and groups of several are contiguous, read-only and within both widths |
| ToolNode.Call | src/lingxigraph/tools.py:232-267 | the node: refused without a model message, a command only alone |
| RoundTrips.RoundTrip | src/lingxigraph/serialization.py:85-161 | decode(encode(v)) = v iff v holds nothing unsupported, no dict with a reserved type tag and no set in a set |
| RoundTrips.LoadsDumps | src/lingxigraph/serialization.py:59-80 | the same through the versioned envelope |
| RoundTrips.ReservedChanges | src/lingxigraph/serialization.py:136-161 | a dict whose `__type__` is a reserved tag never comes back as it was |
| RoundTrips.FrozenRound | src/lingxigraph/serialization.py:92-95 | a hashable value comes back unchanged or not at all |
| CheckpointRows.RebuildRestores | src/lingxigraph/checkpoint/sqlite.py:54-84 | rebuilding the fields of a version 2 checkpoint gives that checkpoint |
| CheckpointRows.CheckpointRoundTrip | src/lingxigraph/checkpoint/sqlite.py:54-84 | a stored checkpoint is loaded as it was saved iff all its fields are faithful |

## Left out

- Subgraph nodes, parent-scoped commands and static interrupts in the recovery theorems: stored results drop
  `ReplaceValue` and the parent command there, so the claims do not hold for them.
- `Command(goto=...)`, `Command(update=...)` and new input on a thread whose last run has not ended: they change the run
  on purpose.
- Turns.TurnFedExactly: for tasks that ask no questions; what a task that asks does with a stored result is not covered.
- Reducers, routing functions and node bodies are deterministic and total; reducers that raise fail the merge only
  through `InvalidUpdate`.
- Step timeouts, deadlines, recursion limits in the event model, cancellation tokens, node semaphores and the result
  cache.
- Execution.RunToEnd: stated for synchronous checkpoints; the asynchronous mode is covered by the events of Durability
  and by AsyncWriter.
- ExitDurability.ExitIsFaithfulExactly: for tasks that ask no questions and one invocation without failures, the use
  exit durability is documented for.
- LevelledGraphs.LevelledIsFaithful: a sufficient condition on the graph, without deferral; the exact one is about the
  run.
- LiveRuns.LiveExactly: graphs that both defer and lead back; their closure can hold nodes that never run, and which of
  them do is not characterised.
- Transparency.FailureTransparency: resume values are required to answer each question as the failure-free run was
  answered; what a different answer leads to is a different run.
- Completion.CompletesExactlyWhenReferenceEnds: says that a completing continuation exists, not that a scheduler finds it.
- DeliveryProofs.DispositionSettles: the dead-letter exit after a failed flush leaves rows pending and is not covered by
  it; neither is a cancellation that finishes a run outside the disposition call.
- The repository's SQL form, redrive, the transfer of pending steering when a paused run is resumed, and the
  `delivered` status, which nothing writes.
- Hygiene: how one text is bounded (regular expressions, base64 and line elision, byte caps) is a parameter.
- Compaction: the wording of the deterministic summary and the `messages_summarized` count.
- Messages.AddMessages: coercion of loose values into messages, and deep copies.
- Message contents are texts; structured contents appear as their JSON text.
- Serialization: the JSON text itself, base64 and the text forms of dates are parameters; enums, paths, pydantic values
  and unregistered dataclasses other than checkpoints do not come back by design. Numbers that Python equates, such as
  1 and True, are different values here.
- CheckpointRows.Rebuild: documents whose tuple fields hold something other than a list or tuple are refused here.
- Layering: only the layers, not the drawing.
- ToolNode: permission checks, budgets, secrets, time-outs and error wrapping happen inside a tool's own steps.
- HTTP, SSE, Redis, SQL, authentication, tracing, adapters, the command line and the documentation site.
