# Compute Fabric, modelled and proved in Dafny

Compute Fabric schedules compute tasks over a set of nodes. One coordinator thread owns a
graph of tasks, the attempts made at them, the reservations those attempts hold and a record
on disk; nodes and clients send it messages, in any order, late or twice; it may crash and
start again at any moment. Around it stand a slot allocator, a big-endian codec with framing
and checksums, a store file, a cost-based scheduler, and executors and sockets shared by
threads.

The model follows that structure, and everything below is stated for all inputs, all runs or
all interleavings.

| files | what they hold |
|---|---|
| `Basics`, `Types` | machine widths, identifiers, the shared records |
| `Lifecycle` | the legal moves of a task |
| `Paths`, `TaskGraphs` | the dependency graph: cycle search with rollback, Kahn's algorithm |
| `Reservations`, `NoOvercommit` | the allocator and its capacity theorem |
| `CoordinatorCore` | the coordinator as a value, one function for each handler |
| `CoordinatorInvariants`, `CoordinatorSteps`, `CoordinatorRecovery` | what each step and each start keeps |
| `CoordinatorHistory`, `CoordinatorRuns`, `CoordinatorTheorems` | runs with failing saves and restarts, and the theorems about them |
| `CoordinatorEffects`, `CoordinatorUpkeep` | what each event does to the records, said of their fields |
| `CoordinatorOutcomes`, `CoordinatorNodes`, `CoordinatorSweeps` | what becomes of results, failures, cancellations and lost nodes, and what a sweep leaves |
| `CoordinatorRelease`, `CoordinatorWitnesses` | when blocked tasks are released, and runs that reach the awkward states |
| `Coordinator` | the coordinator as an object; each handler is proved to be the corresponding step |
| `Wire`, `Serialize`, `Identifiers` | byte formats |
| `Crc`, `CrcPolynomial`, `Frame`, `Channel` | checksums, frames, stream reassembly |
| `Store`, `Durability` | the file, and the coordinator together with its file |
| `CpuExecutor`, `ExecutorOrder`, `SocketClose` | two lock-based protocols as interleaved steps |
| `VectorKernel`, `VectorRuns`, `VectorDigest` | the CPU and GPU versions of the vector kernel, its inputs and its digest |
| `CostModel`, `Placement`, `Preferences`, `Scheduling` | choosing a node, what moves the choice, and the coordinator placing tasks with it |

How to read the coordinator: a `Core` is the whole state. `CoordinatorRuns.Next` is one event,
`After` a run of them. Clocks, fresh ids, the scheduler's decision and whether a save reaches
the disk are chosen by the environment: they are parameters of the functions and arbitrary
values in the class. A sweep is a run of single events, so a crash in the middle of one is
covered. Reachable means reachable from a start on an empty store.

What the code turns out to do, where a stronger claim would be false:

- A completion that arrives while its task is still Dispatching commits the attempt but cannot
  move the task, which stays Dispatching and may be made ready and commit again. So a task's
  committed attempts number its commits in Dispatching plus one if it has succeeded
  (`CommitConservation`, `DispatchingCommitRunsAgain`, and a run of it in `CommitsTwice`).
- A task submitted after its dependencies have all succeeded is put in Blocked and never leaves
  it except by cancellation or expiry. Every other task is released: an event leaves a task
  Blocked with all its dependencies Succeeded if and only if it takes that task in too late
  (`MissedIff`, `ReleasedIff`, `SubmissionFate`, and a reachable case in `ComesTooLate`).
- Two messages are not checked against a commitment: a started or cancelled message that comes
  after the completion, in the same epoch, rewrites the committed attempt. The four values
  that make up the result are never lost; device, state and time are, exactly then
  (`ResultsLast`, `CommittedChanges`). A task that is made to run that way has no attempt left
  to complete, and the loss of its node leaves it running (`LeftRunning`).
- A task that has failed with its last attempt is retried after all when a failure message for
  an earlier attempt arrives, or when a node is lost on which an attempt of it is still on
  record as under way; outside a restart, only then (`FailedLeavesIff`, `FailedRevived`).
- A request to cancel a running task holds until the next restart, which forgets it
  (`CancellationHolds`, `StartRecovers`).
- A heartbeat ends a drain, and puts a lost node online without connecting it (`HeartbeatSays`).
- Failing the dependents of a failed task never takes effect: no waiting state may move to Lost
  or Failed (`PropagatePoison`).
- A start whose save is lost is followed by a start under the same epoch; the epoch rises at a
  restart exactly when the disk holds the current one (`EpochRisesIff`, `LostSaveReusesEpoch`).
  A final state survives a restart exactly when the disk holds it (`FinalSurvivesIff`,
  `FinalLost`).
- An insertion rejected for a cycle always loses a reverse edge (`RollbackInverse`,
  `CycleRejectionLosesReverseEdge`); coordinator runs never get there (`SubmissionAccepted`).
- The slot check wraps at 2^32 (`GrantIsExact`, `WrappedRequestIsGranted`), and the scheduler's
  slot comparison turns requests from 2^31 on negative (`SlotsSufficeIff`,
  `HugeRequestIsEligible`).
- Whether a node is connected never decides its eligibility (`ConnectionIgnored`).
- Entry 42 of the checksum table is not the one its polynomial gives, and it is the only one
  (`TableIsPolynomialIff`); program and polynomial agree throughout a string exactly when no step
  uses it (`AgreeIff`). The detection results hold of the table as written.
- Cancelling by attempt id misses an item when one attempt was enqueued while an item with it was
  queued, running or, with several workers, done but not yet forgotten; exactly then
  (`EnqueueSafeIff`). With several workers that is what the executor's own query answers
  (`ClashIff`).
- Beyond 4096 blocks of 256 the GPU computes nothing, and its run succeeds exactly when the
  memory there happens to be zero (`GpuRun`).
- The CPU and GPU kernels differ on an element exactly when the CPU's 32-bit addition wraps
  (`ElementsAgreeIff`).

## Model

| member | source | states |
|---|---|---|
| `Lifecycle.TaskLifecycle.Transition` | src/task/lifecycle.cpp:82-91 | stays on the state it is in, moves when the move is legal, and otherwise reports it and stays |
| `Lifecycle.FinalStatesAreAbsorbing` | src/task/lifecycle.cpp:35-80 | Succeeded, Cancelled and Expired are never left in any legal history |
| `Lifecycle.SuccessRanAfterDispatch` | src/task/lifecycle.cpp:35-80 | a history that reaches Succeeded passed through Dispatching and then Running |
| `Lifecycle.WaysIn` | src/task/lifecycle.cpp:35-80 | the table by the state entered: only an active task is lost, and whatever is not over can be cancelled or expire |
| `Paths.TrappedSetHasCycle` | src/task/dag.cpp:153-177 | a finite set in which every member has an edge back into the set contains a cycle: why leftover tasks mean a cycle |
| `Paths.NewNodeCycles` | src/task/dag.cpp:69-93 | when only the edges out of one task are new, every cycle is reachable from it, so searching from it alone is enough |
| `TaskGraphs.Search` | src/task/dag.cpp:76-88 | the white/gray/black search finds something only if a cycle is reachable, and otherwise finishes every reachable node, keeping gray nodes gray |
| `TaskGraphs.TaskGraph.ValidateDependencies` | src/task/dag.cpp:69-93 | reports a cycle if and only if one is reachable from the task |
| `TaskGraphs.TaskGraph.AddTask` | src/task/dag.cpp:8-39 | the four maps after an insertion, accepted or rolled back |
| `TaskGraphs.AddedDecides` | src/task/dag.cpp:8-39 | on an acyclic graph an insertion is accepted if and only if the extended graph is acyclic; a rejected one restores tasks, states and dependencies |
| `TaskGraphs.ExtendedInverse` | src/task/dag.cpp:17-25 | an accepted insertion keeps the reverse map the inverse of the dependencies |
| `TaskGraphs.RollbackInverse` | src/task/dag.cpp:26-37 | a rejected insertion keeps it so if and only if no task already depends on the rejected one |
| `TaskGraphs.CycleRejectionLosesReverseEdge` | src/task/dag.cpp:26-37 | every rejection for a cycle therefore loses a reverse edge |
| `TaskGraphs.TaskGraph.DependenciesSatisfied` | src/task/dag.cpp:95-103 | true exactly when every dependency is present and Succeeded |
| `TaskGraphs.TaskGraph.DependencyPoisoned` | src/task/dag.cpp:105-117 | true exactly when some dependency is present in a poisoned state |
| `TaskGraphs.PoisonIs` | src/task/dag.cpp:105-117 | a dependency poisons when it is over without success, unless it was taken off its node |
| `TaskGraphs.TaskGraph.SetTaskState` | src/task/dag.cpp:126-139 | an illegal move leaves the state alone; result and new states in every case |
| `TaskGraphs.TaskGraph.RestoreState` | src/task/dag.cpp:141-146 | overwrites the state of a known task without checking the move |
| `TaskGraphs.Kahn` | src/task/dag.cpp:153-172 | builds an order in which each step takes the least ready task, until none is ready |
| `TaskGraphs.GreedyIsLeast` | src/task/dag.cpp:153-172 | such an order is lexicographically least among all topological orders |
| `TaskGraphs.StuckMeansCycle` | src/task/dag.cpp:173-175 | tasks left over with every dependency present lie on a cycle |
| `TaskGraphs.TopologicalIsAcyclic` | src/task/dag.cpp:153-177 | a graph with a topological order is acyclic and complete |
| `TaskGraphs.TaskGraph.TopologicalOrder` | src/task/dag.cpp:153-177 | succeeds if and only if every dependency is present and the graph is acyclic; the result is a permutation, dependencies first, lexicographically least |
| `Reservations.Accumulate` | src/resource/reservation.cpp:20-30 | the accumulator loops give the true sum modulo the width |
| `Reservations.ReservationRegistry.TryReserve` | src/resource/reservation.cpp:32-97 | granted or refused for the first failing check, with wrapping sums; a grant adds one reservation and a refusal changes nothing |
| `Reservations.ReservationRegistry.ReleaseOne` | src/resource/reservation.cpp:99-109 | releases a live reservation and reports any other id |
| `Reservations.ReservationRegistry.ReleaseMany` | src/resource/reservation.cpp:111-141 | releases exactly the live reservations of a node, of all other epochs, or of one session of a node, and counts them |
| `Reservations.ReservationRegistry.UsedSlots` | src/resource/reservation.cpp:159-162 | the sum of live slots modulo 2^32 |
| `NoOvercommit.GrantIsExact` | src/resource/reservation.cpp:58-82 | a granted request respects each bound it was checked against if and only if that sum did not wrap |
| `NoOvercommit.NeverOvercommitted` | src/resource/reservation.cpp:32-141 | every run of reserve, release and invalidate with capacities small enough not to wrap keeps executor slots, CPU worker slots and scratch within capacity |
| `NoOvercommit.NodeWithinTotal` | src/resource/reservation.cpp:32-97 | the slots held on a node never exceed what its executors offer together |
| `NoOvercommit.ReleaseReturnsOnce` | src/resource/reservation.cpp:99-109 | a release gives back exactly what was held, on every meter, and only the first time |
| `NoOvercommit.WrappedRequestIsGranted` | src/resource/reservation.cpp:58-64 | with one slot of one in use, a request for 2^32 - 1 more is granted |
| `NoOvercommit.FirstFailing` | src/resource/reservation.cpp:32-97 | a request is refused exactly for the first of eight checks that fails, and granted when none does |
| `NoOvercommit.BulkReleases` | src/resource/reservation.cpp:111-141 | which reservations the three bulk releases release, and that nothing else about any changes |
| `CoordinatorInvariants.PersistInv` | src/coordinator/coordinator.cpp:227-250 | saving keeps the invariant, and a save that succeeds makes disk and memory agree |
| `CoordinatorInvariants.ReleaseForInv` | src/coordinator/coordinator.cpp:1951-1958 | releasing a task's reservation leaves it none and disturbs no other |
| `CoordinatorSteps.SubmissionAccepted` | src/coordinator/coordinator.cpp:1495-1507 | a submitted task whose dependencies are present is never refused by the graph |
| `CoordinatorSteps.SubmitInv` | src/coordinator/coordinator.cpp:1472-1549 | submission keeps the invariant |
| `CoordinatorSteps.CancelInv` | src/coordinator/coordinator.cpp:1603-1654 | cancellation keeps the invariant |
| `CoordinatorSteps.StartAttemptInv` | src/coordinator/coordinator.cpp:1204-1219 | a started message, for any attempt, keeps the invariant |
| `CoordinatorSteps.CompleteAttemptInv` | src/coordinator/coordinator.cpp:1221-1358 | a completion, committed or rejected, keeps the invariant |
| `CoordinatorSteps.FailAttemptInv` | src/coordinator/coordinator.cpp:1360-1433 | a failure, retried or final, keeps the invariant |
| `CoordinatorSteps.CancelledByNodeInv` | src/coordinator/coordinator.cpp:1435-1448 | a cancellation reported by a node keeps the invariant |
| `CoordinatorSteps.ReleaseByNodeInv` | src/coordinator/coordinator.cpp:1450-1467 | a release asked for by a node keeps the invariant |
| `CoordinatorSteps.LoseNodeInv` | src/coordinator/coordinator.cpp:1891-1937 | losing a node keeps the invariant |
| `CoordinatorSteps.ScheduleInv` | src/coordinator/coordinator.cpp:1042-1183 | placing one ready task, or expiring it, keeps the invariant |
| `CoordinatorRecovery.RebuildFromDisk` | src/coordinator/coordinator.cpp:144-151 | the graph of a good record is rebuilt without a rejection, although ids may come before the ids they depend on |
| `CoordinatorRecovery.StartRecovers` | src/coordinator/coordinator.cpp:124-218 | a start on any good record succeeds under the next epoch, with the saved tasks, edges and committed attempts and no reservation; a task saved active waits for a retry if its policy has one after a loss, with a timer its own back-off after the start, and has failed otherwise; every other state is kept and no other timer is set |
| `CoordinatorRecovery.RestartKeepsGraph` | src/coordinator/coordinator.cpp:124-218 | after a successful save a restart changes no task and no edge in either direction and keeps every committed attempt |
| `CoordinatorHistory.RejectedCompletionCalm` | src/coordinator/coordinator.cpp:1259-1310 | a completion that does not commit adds no committed attempt and changes none, keeps tasks and edges, and neither brings a task into or out of Succeeded nor out of Cancelled or Expired |
| `CoordinatorHistory.CommitEffect` | src/coordinator/coordinator.cpp:1302-1358 | a commit adds exactly one committed attempt, of the current epoch, to one task |
| `CoordinatorHistory.CommitReleasesDependents` | src/coordinator/coordinator.cpp:1960-1978 | after a success no direct dependent is left Blocked with all its dependencies Succeeded |
| `CoordinatorRuns.NextInv` | src/coordinator/coordinator.cpp:816-878 | every event keeps the invariant |
| `CoordinatorRuns.RunInv` | src/coordinator/coordinator.cpp:782-878 | the invariant holds throughout every run, with restarts and failing saves |
| `CoordinatorRuns.NextHistory` | src/coordinator/coordinator.cpp:816-878 | an event other than a restart commits nothing or commits one attempt |
| `CoordinatorRuns.NextThrough` | src/coordinator/coordinator.cpp:227-250 | after an event the disk is untouched or up to date, and up to date again if the save succeeded |
| `CoordinatorEffects.CompletionDelivers` | src/coordinator/coordinator.cpp:1221-1358 | a completion commits exactly when the attempt is uncommitted, current and under way, the reservation is its own, the task is executing and nobody asked to cancel it; then the attempt carries the five reported values and the time, nothing else of it and no other attempt changes, and the task gives its reservation back |
| `CoordinatorEffects.CompletionReadies` | src/coordinator/coordinator.cpp:1325-1357 | a running task then succeeds and exactly the tasks that waited for it alone are ready, from that time on |
| `CoordinatorEffects.CompletionRefused` | src/coordinator/coordinator.cpp:1259-1310 | when cancellation was asked for, the attempt is closed as cancelled and the task taken off its node; any other completion that does not commit changes nothing |
| `CoordinatorEffects.StartedMarks` | src/coordinator/coordinator.cpp:1204-1219 | a started message of this epoch marks the attempt, whatever it was, and moves a dispatching task to Running; nothing else changes |
| `CoordinatorEffects.NodeCancelCloses` | src/coordinator/coordinator.cpp:1435-1448 | a cancellation reported by the node closes the attempt, committed or not, and preempts its task |
| `CoordinatorEffects.FailureDecides` | src/coordinator/coordinator.cpp:1360-1433 | a failure of a current uncommitted attempt records kind, reason and time; its running task waits for a retry exactly if the policy allows that kind and number + 1, which wraps at 2^32, is below the maximum, with the timer set exactly then, and has failed otherwise |
| `CoordinatorEffects.CancelAsks` | src/coordinator/coordinator.cpp:1603-1654 | a running task is marked and goes on, any other that is not over is cancelled at once, and one that is over is left alone |
| `CoordinatorEffects.SubmitEnters` | src/coordinator/coordinator.cpp:1472-1549 | a submission is taken in exactly when id, coordinator and dependencies allow it; the task, its edges, its state, its workload and nothing else are then new |
| `CoordinatorUpkeep.RegistrationSays` | src/coordinator/coordinator.cpp:929-990 | a registration, unless it repeats itself on its connection, puts the node online with what it brings and the next session epoch |
| `CoordinatorUpkeep.HeartbeatSays` | src/coordinator/coordinator.cpp:992-1019 | a heartbeat counts exactly when session, session epoch and coordinator epoch are current, and then puts the node online |
| `CoordinatorUpkeep.DrainSays` | src/coordinator/coordinator.cpp:1754-1775 | draining and its end change only the health of a node that is not offline |
| `CoordinatorUpkeep.DisconnectSays` | src/coordinator/coordinator.cpp:1021-1038 | a broken connection disconnects the node, which counts as silent exactly after more than 100 milliseconds |
| `CoordinatorUpkeep.ReleaseSays` | src/coordinator/coordinator.cpp:1450-1467 | a node's release releases that reservation and nothing else |
| `CoordinatorUpkeep.SaveRecords` | src/coordinator/coordinator.cpp:227-250 | what a save records: tasks, states and workloads, exactly the committed attempts, the number of all attempts, every placement once in id order |
| `CoordinatorUpkeep.RequeueIff` | src/coordinator/coordinator.cpp:1844-1859 | a dispatch unanswered for more than five seconds, and only such, makes its task ready again and frees its reservation |
| `CoordinatorUpkeep.RetryIff` | src/coordinator/coordinator.cpp:1861-1869 | a task that waits for a retry is ready once its timer has run out and not before |
| `CoordinatorUpkeep.ExpireIff` | src/coordinator/coordinator.cpp:1871-1885 | a task expires exactly when it is ready, blocked or waiting for a retry at its deadline |
| `CoordinatorUpkeep.PlacingSays` | src/coordinator/coordinator.cpp:1062-1183 | a placing step sends a ready task out exactly when the decision names a connected node with room, with GPU slots for CUDA and CPU slots otherwise; the reservation, the attempt and the record of the decision field by field |
| `CoordinatorUpkeep.LossSays` | src/coordinator/coordinator.cpp:1891-1937 | the lost node is offline and disconnected; exactly the tasks with an uncommitted attempt under way on it give back what they hold and wait for a retry, with a timer, or have failed, as their policy says; every other task keeps state, timer and any reservation on another node |
| `CoordinatorOutcomes.OnlyItsMessages` | src/coordinator/coordinator.cpp:1941-1949 | outside a restart an attempt is changed only by a message about it |
| `CoordinatorOutcomes.ResultsLast` | src/coordinator/coordinator.cpp:1312-1358 | what a saved completion delivered, memory and disk hold after every later run; and the whole record, if no late message rewrites it |
| `CoordinatorOutcomes.CommittedChanges` | src/coordinator/coordinator.cpp:1204-1219 | what each event does to a committed attempt: nothing, unless it is a started or cancelled message for it in its epoch |
| `CoordinatorOutcomes.LastFailureIsFinal` | src/coordinator/coordinator.cpp:1388-1410 | a failure of the last attempt the policy has, or of a later one, makes no task wait for a retry and sets no timer, in any state |
| `CoordinatorOutcomes.FailedLeavesIff` | src/coordinator/coordinator.cpp:1400-1404 | outside a restart a failed task stays failed unless the event revives it, and then it waits for a retry |
| `CoordinatorOutcomes.FailedStays` | src/coordinator/coordinator.cpp:1360-1433 | a failed task that is saved stays failed in every run that does not revive it, restarts included |
| `CoordinatorOutcomes.CancellationHolds` | src/coordinator/coordinator.cpp:1275-1278 | once cancellation was asked for, the task commits nothing and does not succeed in any run without a restart |
| `CoordinatorOutcomes.InterruptedIsRetried` | src/coordinator/coordinator.cpp:165-183 | a task saved active is ready again exactly once its back-off has passed since the restart, if its policy allows it, and never by a retry otherwise |
| `CoordinatorNodes.ReachablePlaced` | src/coordinator/coordinator.cpp:1891-1937 | in every reachable state each live reservation belongs to an uncommitted attempt under way on the same node, which has not been lost |
| `CoordinatorNodes.LossEmptiesNode` | src/coordinator/coordinator.cpp:1891-1937 | when a node is lost nothing is held on it and no task with an uncommitted attempt under way there goes on executing |
| `CoordinatorSweeps.SweepSettles` | src/coordinator/coordinator.cpp:1826-1889 | when a sweep comes to placing, every silent node is offline, no dispatch is unanswered for too long, no back-off has run out, and no waiting task is past its deadline |
| `CoordinatorTheorems.ReservationOwnership` | src/coordinator/coordinator.cpp:1042-1180 | in every reachable state each live reservation is the one recorded for its task, which is Dispatching or Running, and no task has two |
| `CoordinatorTheorems.DependencySafety` | src/coordinator/coordinator.cpp:1960-1978 | in every reachable state a task outside Submitted, Blocked, Cancelled and Expired has every ancestor Succeeded |
| `CoordinatorTheorems.RunSynced` | src/coordinator/coordinator.cpp:227-250 | when every save succeeds, disk and memory agree after every event on epoch, tasks, states and committed attempts |
| `CoordinatorTheorems.RestartResumes` | src/coordinator/coordinator.cpp:124-218 | in any run a restart resumes exactly what the disk holds, one epoch later, with states and timers as a start sets them |
| `CoordinatorTheorems.EpochRisesIff` | src/coordinator/coordinator.cpp:135-142 | a restart raises the epoch if and only if the disk holds the current one |
| `CoordinatorTheorems.LostSaveReusesEpoch` | src/coordinator/coordinator.cpp:135-142 | a start whose save is lost is followed by a start under the same epoch |
| `CoordinatorTheorems.EpochCountsRestarts` | src/coordinator/coordinator.cpp:135-142 | when every save succeeds the epoch goes up by one at each restart and at no other event |
| `CoordinatorTheorems.CommitsAreConserved` | src/coordinator/coordinator.cpp:1221-1358 | over every run, with failing saves and restarts: committed attempts are the commits taken in Dispatching that the history still holds, plus one exactly when the task has succeeded |
| `CoordinatorTheorems.CommitConservation` | src/coordinator/coordinator.cpp:1221-1358 | with successful saves that count is over the whole run, and without such commits a task has succeeded if and only if exactly one attempt is committed |
| `CoordinatorTheorems.CommitLeavesDispatching` | src/coordinator/coordinator.cpp:1272-1273 | a commit in Dispatching counts, gives the reservation back, leaves the task in Dispatching and leaves the dispatch timeout running |
| `CoordinatorTheorems.DispatchingCommitRunsAgain` | src/coordinator/coordinator.cpp:1272-1273 | a commit in Dispatching leaves the task there with no live reservation, and the dispatch timeout makes it ready again with the commit counted |
| `CoordinatorTheorems.FinalIsForever` | src/coordinator/coordinator.cpp:1221-1358 | once Succeeded, Cancelled or Expired has reached the disk, the task stays so and gains no committed attempt in any run, whatever saves fail |
| `CoordinatorTheorems.FinalSurvivesIff` | src/coordinator/coordinator.cpp:124-218 | a final state survives a restart if and only if the disk holds it |
| `CoordinatorTheorems.NewCommitsAreCurrent` | src/coordinator/coordinator.cpp:1221-1262 | every newly committed attempt carries the current epoch |
| `CoordinatorTheorems.PastIsFrozen` | src/coordinator/coordinator.cpp:1204-1262 | from any reachable state on, no message and no restart ever changes an attempt of an earlier epoch, whatever saves fail |
| `CoordinatorTheorems.ReachablePastSaved` | src/coordinator/coordinator.cpp:227-250 | in every reachable state the disk holds every attempt of an earlier epoch as it is |
| `CoordinatorRelease.StuckForever` | src/coordinator/coordinator.cpp:1960-1978 | a task that memory and disk hold in Blocked with all its dependencies Succeeded leaves Blocked only by cancellation or expiry, in any run |
| `CoordinatorRelease.StuckUntilRestart` | src/coordinator/coordinator.cpp:1960-1978 | without a restart the same holds of memory alone, whatever saves fail |
| `CoordinatorRelease.StuckSurvivesIff` | src/coordinator/coordinator.cpp:124-218 | it survives a restart if and only if the disk holds it |
| `CoordinatorRelease.MissedIff` | src/coordinator/coordinator.cpp:1528-1531 | every event, restarts and lost saves included, leaves a task that was not so Blocked with all its dependencies Succeeded, in memory or on disk, if and only if it takes that task in after they had all succeeded |
| `CoordinatorRelease.TimelyIsNeverMissed` | src/coordinator/coordinator.cpp:1960-1978 | a task no event takes in late is in no state of the run left Blocked with all its dependencies Succeeded |
| `CoordinatorRelease.SubmissionSaved` | src/coordinator/coordinator.cpp:1472-1549 | a saved submission is on disk, and is left Blocked with all its dependencies Succeeded if and only if they had all succeeded when it came; then it is so in memory and on disk alike |
| `CoordinatorRelease.SubmissionFate` | src/coordinator/coordinator.cpp:1472-1549 | a saved submission with a dependency still to succeed is never left Blocked once all have, in any run that follows; one without never leaves Blocked other than by cancellation or expiry |
| `CoordinatorRelease.ReleasedIff` | src/coordinator/coordinator.cpp:1528-1531 | some run leaves a saved submission Blocked with all its dependencies Succeeded if and only if they had all succeeded when it came |
| `CoordinatorWitnesses.CommitsTwice` | src/coordinator/coordinator.cpp:1272-1273 | a run from an empty store, every save successful, in which one task commits twice |
| `CoordinatorWitnesses.ComesTooLate` | src/coordinator/coordinator.cpp:1528-1531 | a reachable state and a submission that comes too late in it |
| `CoordinatorWitnesses.FinalLost` | src/coordinator/coordinator.cpp:227-250 | a reachable state in which a cancelled task comes back as ready after a restart, its save having been lost |
| `CoordinatorWitnesses.LeftRunning` | src/coordinator/coordinator.cpp:1204-1219 | a run in which a late started message replaces the delivered device and leaves a task running on a lost node |
| `CoordinatorWitnesses.FailedRevived` | src/coordinator/coordinator.cpp:1388-1410 | a reachable state with a task failed by its last attempt that a late failure message, or the loss of the node, puts back to waiting for a retry |
| `Coordinators.KeepCommitted` | src/coordinator/coordinator.cpp:230-235 | the committed attempts of a list, in order |
| `Coordinators.FindAttempt` | src/coordinator/coordinator.cpp:1941-1949 | the first attempt with the id, in the order they are walked, or none when there is none |
| `Coordinators.SortReady` | src/coordinator/coordinator.cpp:1042-1060 | the ready tasks, each once, in placing order |
| `Coordinators.PlacingOrderSays` | src/coordinator/coordinator.cpp:1051-1060 | urgent tasks come first, then those ready longer, then by id |
| `Coordinators.RebuildGraph` | src/coordinator/coordinator.cpp:144-151 | inserting the stored tasks in id order gives the rebuilt graph, or the first failure |
| `Coordinators.RecoverTasks` | src/coordinator/coordinator.cpp:165-183 | every active task becomes Lost and then waits for a retry or fails |
| `Coordinators.Coordinator.StartUp` | src/coordinator/coordinator.cpp:124-218 | comes up in the state of the start step, or fails as it does |
| `Coordinators.Coordinator.Resume` | src/coordinator/coordinator.cpp:152-183 | restores the saved states, then the attempts and the retry timers, and saves |
| `Coordinators.Coordinator.Save` | src/coordinator/coordinator.cpp:227-250 | writes exactly the snapshot of memory, to disk if the save succeeds |
| `Coordinators.Coordinator.ReleaseTaskReservation` | src/coordinator/coordinator.cpp:1951-1958 | releases the reservation recorded for the task |
| `Coordinators.Coordinator.OnTaskSucceeded` | src/coordinator/coordinator.cpp:1960-1978 | the recursion ends, and readies exactly the Blocked dependents that wait for nothing else |
| `Coordinators.Coordinator.PropagatePoison` | src/coordinator/coordinator.cpp:1968-1976 | failing the dependents of a failed task changes nothing |
| `Coordinators.Coordinator.HandleTaskSubmit` | src/coordinator/coordinator.cpp:1472-1549 | performs the submit step, refused submissions included |
| `Coordinators.Coordinator.HandleTaskCancel` | src/coordinator/coordinator.cpp:1603-1654 | performs the cancel step |
| `Coordinators.Coordinator.HandleAttemptStarted` | src/coordinator/coordinator.cpp:1204-1219 | performs the started step |
| `Coordinators.Coordinator.HandleAttemptComplete` | src/coordinator/coordinator.cpp:1221-1358 | performs the completion step: ignored, rejected as cancelled, or committed |
| `Coordinators.Coordinator.HandleAttemptFailed` | src/coordinator/coordinator.cpp:1360-1433 | performs the failure step, with retry or final failure |
| `Coordinators.Coordinator.HandleAttemptCancelled` | src/coordinator/coordinator.cpp:1435-1448 | performs the node's cancellation step |
| `Coordinators.Coordinator.HandleReservationRelease` | src/coordinator/coordinator.cpp:1450-1467 | performs the release step |
| `Coordinators.Coordinator.HandleNodeNews` | src/coordinator/coordinator.cpp:929-1038 | registration, heartbeat, drain and disconnect change the node records as the step does |
| `Coordinators.Coordinator.HandleNodeLoss` | src/coordinator/coordinator.cpp:1891-1937 | performs the node-loss step, tasks in id order |
| `Coordinators.Coordinator.ScheduleReadyTasks` | src/coordinator/coordinator.cpp:1042-1183 | a scheduling round is a run of single placing steps |
| `Coordinators.Coordinator.Sweep` | src/coordinator/coordinator.cpp:1826-1889 | a sweep is a run of single events at one time: every overdue node, stale dispatch, due retry and passed deadline, then the placing round |
| `Wire.BigEndianRoundTrip` | src/protocol/wire.cpp:7-30 | a number comes back from its bytes |
| `Wire.RoundTrip` | src/protocol/wire.cpp:7-152 | for every layout: decoding what was encoded gives it back and leaves what follows untouched |
| `Wire.DecodedFits` | src/protocol/wire.cpp:47-152 | whatever decodes is within the limits |
| `Wire.DecodeExtends` | src/protocol/wire.cpp:47-152 | bytes appended change neither the value nor where it ends |
| `Wire.PrefixFails` | src/protocol/wire.cpp:47-152 | no strict prefix of an encoding decodes |
| `Wire.RoundTripIff` | src/protocol/wire.cpp:7-152 | the round trip holds exactly within the limits |
| `Wire.BinaryWriter.PutUnsigned` | src/protocol/wire.cpp:7-29 | appends the big-endian bytes of a number of any width |
| `Wire.BinaryWriter.PutString` | src/protocol/wire.cpp:36-39 | appends length and bytes |
| `Wire.BinaryReader.ReadUnsigned` | src/protocol/wire.cpp:47-105 | reads a number and moves past it, or fails without enough bytes |
| `Wire.BinaryReader.ReadString` | src/protocol/wire.cpp:131-139 | reads a string up to its limit, or fails |
| `Wire.Serialize` | src/protocol/wire.cpp:7-45 | writing a value field by field appends its encoding |
| `Wire.Deserialize` | src/protocol/wire.cpp:47-152 | reading field by field returns what decoding does and stops where it does |
| `Serialize.CodecRoundTrip` | src/protocol/serialize.cpp:34-433 | a record codec returns the record, with any suffix untouched, if and only if it is within the limits |
| `Serialize.CodecPrefixFails` | src/protocol/serialize.cpp:34-433 | no strict prefix of a record decodes |
| `Serialize.GoodStateDep` | src/protocol/serialize.cpp:52-84 | the state-dependency codec is faithful to its record |
| `Serialize.GoodTags` | src/protocol/serialize.cpp:128-132 | a tag map comes back from its entries in key order |
| `Serialize.GoodTask` | src/protocol/serialize.cpp:86-243 | the task codec is faithful to its record |
| `Serialize.TaskRoundTrip` | src/protocol/serialize.cpp:86-243 | tasks: round trip exactly within the limits, suffix untouched, strict prefixes fail |
| `Serialize.AttemptRoundTrip` | src/protocol/serialize.cpp:270-322 | attempts: the same |
| `Serialize.PlacementRoundTrip` | src/protocol/serialize.cpp:324-433 | placements: the same |
| `Serialize.WorkloadRoundTrip` | src/protocol/serialize.cpp:245-268 | workloads: the same |
| `Serialize.WriteRecord` | src/protocol/serialize.cpp:34-433 | the writer appends the encoding of a record |
| `Serialize.ReadRecord` | src/protocol/serialize.cpp:34-433 | the reader returns what decoding the rest returns |
| `Identifiers.ToBytes` | src/core/identifiers.cpp:115-120 | the two words, byte by byte, are the 16 big-endian bytes of the identifier |
| `Identifiers.FromBytes` | src/core/identifiers.cpp:122-129 | the identifier those bytes stand for |
| `Identifiers.BytesRoundTrip` | src/core/identifiers.cpp:115-129 | identifiers and sixteen-byte strings correspond one to one |
| `Identifiers.FromHex` | src/core/identifiers.cpp:92-113 | accepts exactly the texts of 32 hexadecimal digits and returns their value |
| `Identifiers.HexRoundTrip` | src/core/identifiers.cpp:84-113 | a printed identifier reads back as itself |
| `Identifiers.HexCanonical` | src/core/identifiers.cpp:84-113 | what was read prints as the same text in lower case |
| `Crc.TopBytesDistinct` | src/core/digest.cpp:9-52 | the top bytes of the 256 table entries, as written, are pairwise distinct |
| `Crc.StepInjective` | src/core/digest.cpp:54-56 | with the same byte, different states step to different states |
| `Crc.FourStepsTell` | src/core/digest.cpp:54-56 | the states before and after four steps fix the four bytes |
| `Crc.ComputeUpdate` | src/core/digest.cpp:54-57 | the loop computes the checksum state of the bytes |
| `Crc.WindowDetected` | src/core/digest.cpp:7-58 | strings that differ within four consecutive bytes have different states, whatever surrounds them |
| `Crc.DifferenceDetected` | src/core/digest.cpp:7-58 | two strings of one length, short or long, that differ only within four consecutive bytes have different checksums |
| `CrcPolynomial.TableIsPolynomialIff` | src/core/digest.cpp:9-52 | an entry of the table is the one the polynomial of section 8 of RFC 1952 gives if and only if its index is not 42 |
| `CrcPolynomial.BitStepIs` | src/core/digest.cpp:54-56 | dividing a byte in bit by bit is one step with a table of the polynomial's entries |
| `CrcPolynomial.StepIsPolynomialIff` | src/core/digest.cpp:54-56 | a step is the polynomial's if and only if it does not use entry 42 |
| `CrcPolynomial.ChecksumIsPolynomial` | src/core/digest.cpp:7-58 | the checksum is the polynomial's on every string whose steps never use entry 42 |
| `CrcPolynomial.AgreeIff` | src/core/digest.cpp:7-58 | program and polynomial agree after every byte of a string if and only if no step uses entry 42 |
| `CrcPolynomial.OneByteDiffers` | src/core/digest.cpp:17-17 | the one-byte string 213 has another checksum than the polynomial gives |
| `Frames.FieldsBack` | src/protocol/frame.cpp:52-110 | every header field comes back from the encoded header |
| `Frames.FrameAccepted` | src/protocol/frame.cpp:68-154 | a frame as built passes both checks of the receiver if and only if its payload is within the limit |
| `Frames.DamagedHeaderRejected` | src/protocol/frame.cpp:68-110 | a header changed within four consecutive bytes is rejected, if the change keeps to the covered bytes or to the checksum |
| `Frames.DamagedPayloadRejected` | src/protocol/frame.cpp:135-154 | a payload changed within four consecutive bytes is rejected |
| `Channels.Channel.Fill` | src/net/channel.cpp:40-91 | moves bytes from socket to buffer without losing, repeating or reordering any, until there is a whole frame or an error; it stops short only when a deadline passed or the connection broke, which are counted |
| `Channels.Channel.RecvFrame` | src/net/channel.cpp:33-92 | returns the frame the stream begins with and leaves the rest, or refuses it, unless a deadline passed, which loses nothing, or the connection broke; each is counted exactly |
| `Channels.FirstFrame` | src/net/channel.cpp:10-92 | the bytes of a sent frame, followed by anything, can only be read as beginning with that frame |
| `Channels.RecvNext` | src/net/channel.cpp:33-92 | however the bytes of valid frames are cut up, one call returns the first frame and leaves exactly the others, unless a deadline passed or the connection broke |
| `Channels.RecvMany` | src/net/channel.cpp:33-92 | on an unbroken connection every call in which no deadline passed returns the next frame, so as many calls as frames and passed deadlines together return exactly the frames sent |
| `Store.PrefixRejected` | src/persist/store.cpp:132-165 | every strict prefix of a file is rejected |
| `Store.DamagedHeaderRejected` | src/persist/store.cpp:143-165 | a file of the same length and body whose header differs in any way is rejected |
| `Store.DamagedBodyRejected` | src/persist/store.cpp:160-165 | a file whose body differs within four consecutive bytes is rejected |
| `Store.SingleByteRejected` | src/persist/store.cpp:132-165 | every change of one byte is rejected |
| `Store.BodyReadBack` | src/persist/store.cpp:166-195 | the records come back from the body |
| `Store.StoreRoundTrip` | src/persist/store.cpp:132-372 | loading the saved bytes of any well-keyed state with only committed attempts, within the limits, returns that state |
| `Store.StoreRoundTripIff` | src/persist/store.cpp:132-372 | a state comes back from its file if and only if it is well keyed, has only committed attempts and is within the limits |
| `Store.LoadedIsDecent` | src/persist/store.cpp:197-259 | whatever bytes load give a well-keyed state with only committed attempts and every record within the limits |
| `Store.SaveFile` | src/persist/store.cpp:261-372 | the loops over workloads, tasks, states, attempts, counts and placements produce the file of the state |
| `Store.LoadFile` | src/persist/store.cpp:132-259 | the reader returns what loading those bytes returns, errors included |
| `Durability.RestartFromFile` | src/coordinator/coordinator.cpp:124-250 | in any reachable state within the limits, the saved file loads as what was saved, and a start on it resumes exactly that under the next epoch |
| `Durability.DamagedFileRefused` | src/persist/store.cpp:132-165 | that file, cut short anywhere or changed in one byte, is refused |
| `CpuExecutor.RunInv` | src/executor/cpu_executor.cpp:48-178 | under every interleaving each accepted item is queued, in a worker's hands or completed, once |
| `CpuExecutor.NothingLost` | src/executor/cpu_executor.cpp:162-178 | when the first shutdown returns, the completed items are exactly the accepted ones |
| `CpuExecutor.ClosedForGood` | src/executor/cpu_executor.cpp:48-61 | and nothing is accepted after that, in any continuation |
| `CpuExecutor.Bounded` | src/executor/cpu_executor.cpp:48-123 | no more items run than there are motors, and no more wait than the limit |
| `CpuExecutor.CancelReaches` | src/executor/cpu_executor.cpp:63-77 | in every run whose admitted enqueues meet no clash, a cancellation reaches every item accepted and not completed, and that item; attempts may come again once done with |
| `CpuExecutor.HasActiveIff` | src/executor/cpu_executor.cpp:79-85 | the caller's question is answered yes exactly when a cancellation would find something |
| `CpuExecutor.ClashIff` | src/executor/cpu_executor.cpp:79-85 | a no to that question means no clash, and with more than one worker a yes means there is one |
| `CpuExecutor.EnqueueSafeIff` | src/executor/cpu_executor.cpp:48-123 | an admitted enqueue of a new item keeps everything within reach in all careful continuations if and only if it meets no clash |
| `CpuExecutor.SharedIsUnreached` | src/executor/cpu_executor.cpp:63-77 | in any state two uncompleted items with one attempt leave one of them out of reach |
| `CpuExecutor.CancelCanMiss` | src/executor/cpu_executor.cpp:99-123 | for every number of slots, a run that enqueues one attempt twice and puts an item out of reach |
| `ExecutorOrder.InOrder` | src/executor/cpu_executor.cpp:99-113 | items are taken in the order they were accepted, over every run |
| `ExecutorOrder.EnqueueAccepts` | src/executor/cpu_executor.cpp:48-61 | an enqueue is accepted, at the end, exactly when the executor is not stopping and fewer than 1024 items wait |
| `ExecutorOrder.ShutdownCancels` | src/executor/cpu_executor.cpp:162-171 | a shutdown cancels what waits exactly if it does not drain, and leaves what runs alone |
| `ExecutorOrder.AbandonedStays` | src/executor/cpu_executor.cpp:162-178 | every item taken after such a shutdown was cancelled |
| `ExecutorOrder.NeverStuck` | src/executor/cpu_executor.cpp:99-178 | while a shutdown is under way some step is possible without any new call, until it has returned |
| `SocketClose.RunInv` | src/net/socket.cpp:116-191 | the handle, its holders and the closers stay consistent under every interleaving |
| `SocketClose.ClosedOnceAndUnused` | src/net/socket.cpp:165-191 | the native handle is closed at most once, never while an operation holds it, and is shut down only while open |
| `SocketClose.NoneAfterClosing` | src/net/socket.cpp:116-147 | no operation gets the handle after a close has begun |
| `SocketClose.NeverStuck` | src/net/socket.cpp:165-191 | while a thread closes or waits for another to close, an operation can end or a closing thread can go on |
| `VectorKernel.ElementsCompared` | src/executor/workloads.cpp:93-108 | without a wrap both devices compute the same element; with one the GPU's is the CPU's plus five, modulo 2^32 - 5 |
| `VectorKernel.ElementsAgreeIff` | src/executor/cuda_executor.cu:40-48 | the elements agree if and only if the CPU's addition does not wrap, which it never does for an addend of at most five |
| `VectorKernel.RoundKeepsSum` | src/executor/cuda_executor.cu:61-64 | a round between barriers keeps the sum of the live entries |
| `VectorKernel.RunRound` | src/executor/cuda_executor.cu:61-64 | the threads of a round give that round in whatever order they go |
| `VectorKernel.ReduceBlock` | src/executor/cuda_executor.cu:50-68 | the halving rounds leave the sum of the block in its first entry |
| `VectorKernel.ReduceAll` | src/executor/cuda_executor.cu:235-247 | the partial sums of all blocks add up to the sequential sum |
| `VectorRuns.WrapsSomewhere` | src/executor/workloads.cpp:26-33 | for every addend above five the first input generated from seed 1 wraps with some multiplier |
| `VectorRuns.CpuRun` | src/executor/workloads.cpp:93-108 | the sum and the XOR of the CPU's elements, or a refusal above 64 million |
| `VectorRuns.GpuRun` | src/executor/cuda_executor.cu:166-271 | for every size: the run succeeds if and only if the device memory beyond 4096 blocks of 256 happens to hold zeros, and then returns the sum and the XOR of what the device holds |
| `VectorRuns.DevicesAgreeIff` | src/executor/cuda_executor.cu:166-271 | on every size a launch covers, the GPU's elements are the CPU's if and only if none wraps, and then accumulators and digest are the same |
| `VectorRuns.UncoveredElements` | src/executor/cuda_executor.cu:186-192 | beyond that an element is the CPU's if and only if the memory held it before |
| `VectorDigest.MixTells` | src/executor/workloads.cpp:26-33 | the input mixer maps different words to different inputs |
| `VectorDigest.DigestTells` | src/core/digest.cpp:60-77 | two digests are the same if and only if the hashes of the accumulators and the sizes are |
| `VectorDigest.SeedsTell` | src/core/digest.cpp:69-77 | the same accumulators under different seeds give different digests |
| `VectorDigest.KnownDigest` | src/executor/workloads.cpp:196-207 | one digest in full |
| `CostModels.StateLocalityRegistry.Upsert` | src/state/state_locality.cpp:5-7 | afterwards exactly the listed nodes hold that state, and every other state is held where it was |
| `CostModels.StateLocalityRegistry.Remove` | src/state/state_locality.cpp:9-11 | afterwards no node holds that state, and every other state is held where it was |
| `CostModels.StateLocalityRegistry.Register` | src/coordinator/coordinator.cpp:1515-1526 | a submission enters a location for each of its task's state dependencies, in order |
| `CostModels.RegisteredSays` | src/coordinator/coordinator.cpp:1515-1526 | a submission's last word on a state replaces all that was known of it, residents and estimates included, and leaves other states alone |
| `CostModels.StateLocalityRegistry.CheckResident` | src/state/state_locality.cpp:27-35 | whether the node is listed for a known state |
| `CostModels.StateLocalityRegistry.SumTransfer` | src/state/state_locality.cpp:43-66 | the seconds to fetch every dependency the node does not hold |
| `CostModels.StateLocalityRegistry.SumRecompute` | src/state/state_locality.cpp:68-83 | the seconds to rebuild every dependency |
| `CostModels.StateLocalityRegistry.MeasureLocality` | src/scheduler/cost_model.cpp:44-61 | the share of the dependencies' bytes the node holds |
| `CostModels.LocalityRange` | src/scheduler/cost_model.cpp:44-61 | that share is between 0 and 1, and is 1 if and only if every dependency with any bytes is held |
| `CostModels.MeasurePressure` | src/scheduler/cost_model.cpp:16-31 | used slots over offered slots, capped at one |
| `CostModels.PressureRange` | src/scheduler/cost_model.cpp:16-31 | between 0 and 1; 0 and 1 exactly when nothing is counted and when the executor is full |
| `CostModels.SumQueue` | src/scheduler/cost_model.cpp:33-42 | the number of live reservations on the node times the task's duration, at least 0 |
| `CostModels.SumAffinity` | src/scheduler/cost_model.cpp:92-100 | a tenth off for each preference and on for each missing preferred tag |
| `CostModels.Evaluate` | src/scheduler/cost_model.cpp:63-106 | each cost term and their total; without a matching executor the capability weight alone |
| `CostModels.HoldTransfer` | src/state/state_locality.cpp:43-66 | making a state resident on a node never raises its transfer time and changes no other node's |
| `CostModels.HoldCosts` | src/scheduler/cost_model.cpp:63-106 | nor does it raise its cost or change any other's, when latency and transfer weight are not negative |
| `Preferences.PreferCosts` | src/scheduler/cost_model.cpp:92-100 | naming a node once more as preferred takes a tenth of the affinity weight off its total cost and changes no other node's |
| `Preferences.WantCosts` | src/scheduler/cost_model.cpp:92-100 | a further preferred tag costs nothing where it is present and a tenth of the weight where it is not |
| `Preferences.PreferringKeepsChoice` | src/scheduler/scheduler.cpp:104-192 | preferring the chosen node keeps the choice |
| `Preferences.PreferringMoves` | src/scheduler/scheduler.cpp:104-192 | preferring a node can move the choice only to it |
| `Preferences.PreferenceDecidesIff` | src/scheduler/scheduler.cpp:104-192 | it moves it there exactly when a tenth of the weight makes up for the difference in score |
| `Preferences.WantingKeepsChoice` | src/scheduler/scheduler.cpp:104-192 | wanting a tag the chosen node has keeps the choice |
| `Preferences.DurationCosts` | src/scheduler/cost_model.cpp:77-81 | a longer run costs its difference times the execution weight |
| `Preferences.HistoryDecides` | src/scheduler/scheduler.cpp:143-150 | the average of the runs on record for class, executor and node takes the place of the estimate, there alone and not under the baseline policy |
| `Preferences.NeedCosts` | src/state/state_locality.cpp:43-83 | what one more state dependency costs: nothing where it is held, else the first estimate there is or bytes over bandwidth plus latency; and the first recompute estimate |
| `Preferences.LoadElsewhere` | src/scheduler/cost_model.cpp:16-42 | a reservation on one node changes nothing in the costs of another |
| `Preferences.LoadHere` | src/scheduler/cost_model.cpp:16-42 | on its own node it lengthens the queue by the task's estimate and, while the sum does not wrap, never lowers the cost |
| `Preferences.LoadRepels` | src/scheduler/scheduler.cpp:104-192 | a reservation never draws the choice to its node |
| `Preferences.PressureCosts` | src/scheduler/cost_model.cpp:16-31 | pressure costs the weighted excess of the counted slots over the threshold's share of those offered, if there is one |
| `Placement.EligibleIff` | src/scheduler/scheduler.cpp:35-85 | the list of reasons is empty if and only if the node is online, capable, large enough, allowed and tagged as required |
| `Preferences.ReasonsSay` | src/scheduler/scheduler.cpp:35-85 | each reason is given against a node exactly when it applies to the first executor of the kind asked for |
| `Placement.ConnectionIgnored` | src/scheduler/scheduler.cpp:58-60 | whether a node is connected never decides whether it has a reason against it |
| `Placement.SlotsSufficeIff` | src/scheduler/scheduler.cpp:65-73 | an eligible node has the slots asked for if and only if fewer than 2^31 were |
| `Placement.HugeRequestIsEligible` | src/scheduler/scheduler.cpp:65-73 | a request for 2^31 slots is accepted on a node with one |
| `Placement.SchedulerPolicyEngine.ExclusionReasons` | src/scheduler/scheduler.cpp:52-85 | all reasons, in order, one for each forbidding entry and each missing tag |
| `Placement.SchedulerPolicyEngine.EligibleNodes` | src/scheduler/scheduler.cpp:87-95 | the ids of exactly the eligible nodes, ascending |
| `Placement.Partition` | src/scheduler/scheduler.cpp:113-163 | candidates and exclusions partition the nodes, each listed once |
| `Placement.ChoiceUnique` | src/scheduler/scheduler.cpp:97-102 | there is at most one least candidate by score and id |
| `Placement.ChoiceExists` | src/scheduler/scheduler.cpp:164-177 | whenever a node is eligible there is one |
| `Placement.FrontIsChoice` | src/scheduler/scheduler.cpp:174-177 | however the candidates are sorted, the front one is it |
| `Placement.LosersDoNotMatter` | src/scheduler/scheduler.cpp:104-192 | taking away a node that did not win leaves the choice |
| `Placement.BaselineChoice` | src/scheduler/scheduler.cpp:126-135 | the baseline choice is the candidate with the least transfer time, then the least id |
| `Placement.ResidencyMoves` | src/scheduler/scheduler.cpp:104-192 | making a state resident on a node can move the choice only to that node |
| `Placement.ResidencyKeepsChoice` | src/scheduler/scheduler.cpp:104-192 | making it resident on the chosen node keeps the choice |
| `Placement.SchedulerPolicyEngine.ScoreNode` | src/scheduler/scheduler.cpp:125-162 | the reported costs and score of a candidate, under either policy |
| `Preferences.ReportSays` | src/scheduler/scheduler.cpp:120-162 | what is reported of a candidate under either policy |
| `Placement.SchedulerPolicyEngine.Place` | src/scheduler/scheduler.cpp:104-192 | feasible if and only if some node is eligible; reports every candidate and exclusion and chooses the least candidate |
| `Placement.SchedulerPolicyEngine.RecordHistory` | src/scheduler/scheduler.cpp:21-33 | the statistics after one more recorded attempt |
| `Placement.MeanIsAverage` | src/scheduler/scheduler.cpp:21-33 | the incrementally updated mean is the average of all recorded durations; each attempt counts as what it was, with its bytes, and the last duration is kept |
| `Scheduling.ReachableKeyed` | src/coordinator/coordinator.cpp:929-1038 | in every reachable state each node is filed under its own id, as the placement asks |
| `Scheduling.PlacedOnChoice` | src/coordinator/coordinator.cpp:1075-1180 | with the engine's decision, placing a ready task whose deadline has not passed leaves it ready or sends it to the best eligible node, connected and with room, on the executor chosen; with no eligible node it leaves it ready |

## Left out

- Sockets, accept, reader and writer threads, connection reaping, file writing and renaming: the network is an arbitrary source of messages and byte chunks, the store a byte sequence that a save replaces or not.
- The node runtime, the command line, launcher, examples, benchmarks, telemetry, JSON and logging.
- src/protocol/messages.cpp: the same round trip for about forty small records; it would only add easy members.
- Client queries (inspect, list, status), replies to clients and nodes and the cache of answered requests: they read the state and change none of it.
- handle_dispatch_ack, remove_task and the other executors' workloads: no result here depends on them.
- Liveness: nothing is claimed about a task eventually finishing, and three ways it may not are proved. Of the two lock-based protocols it is proved that they cannot deadlock.
- CUDA runtime calls, device enumeration and allocation; cancellation of a kernel under way.
- Random identifiers: fresh ids are assumed distinct from those in use.
- Each handler reads the clock once; the source reads it several times within one handler.
- Doubles are 64-bit patterns in the codec and the coordinator, and reals in placement, so rounding, infinities and not-a-number are not modelled.
- Serialize.TaskRoundTrip: a task's compute capability is a byte, 0 to 255, the range the format can carry.
- Frames.DamagedHeaderRejected: says nothing of a change that straddles the last covered byte and the checksum, where both sides of the comparison move.
- Placement.SchedulerPolicyEngine.RecordHistory: counters are unbounded instead of 64 bits wide.
- Placement.SchedulerPolicyEngine.Place: asks for nodes filed under their own ids, which ReachableKeyed shows of the coordinator's map. Its costs are reals, so it reports them in records of its own and not in the stored decision, whose costs are bit patterns.
- Coordinators.Coordinator.HandleTaskSubmit: the registration of state locations is not part of the coordinator's state here; StateLocalityRegistry.Register models it.
- Coordinators.Coordinator.HandleAttemptComplete: the history entry for the scheduler is not part of the coordinator's state here; SchedulerPolicyEngine.RecordHistory models it.
- VectorRuns.DevicesAgreeIff: the two accumulators enter the digest lowest byte first, as on a little-endian machine.
- Preferences.LoadHere: assumes that the 32-bit sum of the node's slots does not wrap; a wrapped sum can make a full node look empty.
- Preferences.LoadRepels: the same.
- VectorDigest.DigestTells: says it of the 64-bit words of sizes and seeds.
- NoOvercommit.NeverOvercommitted: assumes capacities for which the 32-bit and 64-bit sums cannot wrap, since without that the claim is false.
- Coordinators.Coordinator.HandleNodeNews: one handler stands for registration, heartbeat, drain and disconnect; what they send back is left out.
- Durability.RestartFromFile: the file replaces the previous one whole; a partial write is a prefix, which DamagedFileRefused covers.
