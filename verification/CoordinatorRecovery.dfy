/**
 Starting the coordinator on what is on disk.
 */
module CoordinatorRecovery {
  import opened Basics
  import opened Types
  import opened Paths
  import opened TaskGraphs
  import opened Reservations
  import opened CoordinatorCore
  import opened CoordinatorInvariants
  import Lifecycle

  ghost predicate GoodTasks(tasks: map<Id, ComputeTask>) {
    (forall t :: t in tasks ==> tasks[t].id == t) && Acyclic(DepsOf(tasks))
  }

  /** The graph of the tasks in `done`, all still Submitted. */
  ghost predicate Partial(g: Graph, tasks: map<Id, ComputeTask>, done: set<Id>) {
    && WellFormed(g) && Inverse(g)
    && g.tasks.Keys == done <= tasks.Keys
    && forall t :: t in done ==> g.tasks[t] == tasks[t] && g.states[t] == SUBMITTED
  }

  lemma NoSelfDependency(tasks: map<Id, ComputeTask>, t: Id)
    requires GoodTasks(tasks) && t in tasks
    ensures t !in DepSet(tasks[t])
  {
    var deps := DepsOf(tasks);
    if t in DepSet(tasks[t]) {
      assert IsCycle(deps, [t, t], t);
      assert OnCycle(deps, t);
      assert false;
    }
  }

  lemma PartialStaysAcyclic(g: Graph, tasks: map<Id, ComputeTask>)
    requires GoodTasks(tasks) && WellFormed(g)
    requires forall t :: t in g.tasks ==> t in tasks && g.tasks[t] == tasks[t]
    ensures Acyclic(g.deps)
  {
    forall v | v in g.deps ensures g.deps[v] <= Succ(DepsOf(tasks), v) {}
    FewerEdgesStayAcyclic(g.deps, DepsOf(tasks));
  }

  lemma PartialGrows(g: Graph, tasks: map<Id, ComputeTask>, done: set<Id>, t: Id)
    requires GoodTasks(tasks) && Partial(g, tasks, done) && t in tasks && t !in done
    ensures Partial(Extended(g, tasks[t]), tasks, done + {t})
  {
    hide Inverse, WellFormed;
    ExtendedWellFormed(g, tasks[t]);
    ExtendedInverse(g, tasks[t]);
  }

  /** A task inserted before or after the tasks it depends on is accepted either way. */
  lemma NextIsAccepted(g: Graph, tasks: map<Id, ComputeTask>, done: set<Id>, t: Id)
    requires GoodTasks(tasks) && Partial(g, tasks, done) && t in tasks && t !in done
    ensures Added(g, tasks[t]) == (Extended(g, tasks[t]), Done)
    ensures Partial(Extended(g, tasks[t]), tasks, done + {t})
  {
    hide Inverse, WellFormed;
    NoSelfDependency(tasks, t);
    PartialGrows(g, tasks, done, t);
    PartialStaysAcyclic(Extended(g, tasks[t]), tasks);
    assert !CycleFrom(Extended(g, tasks[t]).deps, t);
  }

  lemma {:induction false} RebuildSucceeds(g: Graph, tasks: map<Id, ComputeTask>, done: set<Id>, ids: seq<Id>)
    requires GoodTasks(tasks) && Partial(g, tasks, done)
    requires Ascending(ids) && forall t :: t in ids ==> t in tasks && t !in done
    ensures Rebuild(g, tasks, ids).Ok?
    ensures Partial(Rebuild(g, tasks, ids).value, tasks, done + Elements(ids))
    decreases |ids|
  {
    hide GoodTasks, Partial, Added, Extended;
    if ids == [] {
      assert done + Elements(ids) == done;
    } else {
      var t := ids[0];
      assert t in ids;
      NextIsAccepted(g, tasks, done, t);
      forall x | x in ids[1..] ensures x in tasks && x !in done + {t} {
        var i :| 0 <= i < |ids[1..]| && ids[1..][i] == x;
        assert x == ids[i + 1] && ids[0] < ids[i + 1];
      }
      RebuildSucceeds(Extended(g, tasks[t]), tasks, done + {t}, ids[1..]);
      assert ids == [t] + ids[1..];
      assert done + {t} + Elements(ids[1..]) == done + Elements(ids);
    }
  }

  lemma EmptyIsPartial(tasks: map<Id, ComputeTask>)
    ensures Partial(EMPTY_GRAPH, tasks, {})
  {
  }

  /** The graph of a good record can always be rebuilt, whatever the order of the ids. */
  lemma RebuildFromDisk(d: DurableState) returns (g: Graph)
    requires GoodTasks(d.tasks)
    ensures Rebuild(EMPTY_GRAPH, d.tasks, Walk(d.tasks.Keys)) == Ok(g)
    ensures Partial(g, d.tasks, d.tasks.Keys)
  {
    hide GoodTasks, Partial, Rebuild;
    var ids := Walk(d.tasks.Keys);
    EmptyIsPartial(d.tasks);
    RebuildSucceeds(EMPTY_GRAPH, d.tasks, {}, ids);
    assert {} + Elements(ids) == d.tasks.Keys;
    g := Rebuild(EMPTY_GRAPH, d.tasks, ids).value;
  }

  lemma PartialIsWhole(g: Graph, tasks: map<Id, ComputeTask>)
    requires Partial(g, tasks, tasks.Keys)
    ensures g.tasks == tasks && g.deps == DepsOf(tasks)
  {
  }

  lemma WholeGraphInv(g: Graph, d: DurableState)
    requires DurableInv(d) && Partial(g, d.tasks, d.tasks.Keys)
    ensures GraphInv(g)
  {
    PartialIsWhole(g, d.tasks);
  }

  /** What recovery does to the states, task by task. */
  lemma RecoveredStates(g: Graph, d: DurableState)
    requires g.states.Keys == g.tasks.Keys == d.taskStates.Keys
    ensures var h := Recovered(Restored(g, d));
            && h == g.(states := h.states) && h.states.Keys == g.states.Keys
            && forall t :: t in g.tasks ==> h.states[t] == RecoveredState(g.tasks[t], d.taskStates[t])
  {
  }

  lemma RecoveredGraphInv(g: Graph, states: map<Id, TaskState>)
    requires GraphInv(g) && states.Keys == g.states.Keys
    ensures GraphInv(g.(states := states))
  {
    var h := g.(states := states);
    forall x, y ensures y in Succ(h.dependents, x) <==> x in Succ(h.deps, y) {
      assert y in Succ(g.dependents, x) <==> x in Succ(g.deps, y);
    }
  }

  lemma RecoveredDepSafe(deps: Edges, before: map<Id, TaskState>, after: map<Id, TaskState>, tasks: map<Id, ComputeTask>)
    requires DepSafe(deps, before) && before.Keys == after.Keys == tasks.Keys
    requires forall t :: t in tasks ==> after[t] == RecoveredState(tasks[t], before[t])
    ensures DepSafe(deps, after)
  {
    forall t, x | t in after && !Waiting(after[t]) && x in Succ(deps, t)
      ensures x in after && after[x] == SUCCEEDED
    {
      assert !Waiting(before[t]);
      assert x in before && before[x] == SUCCEEDED;
    }
  }

  lemma LaterEpoch(attempts: map<Id, seq<Attempt>>, tasks: set<Id>, epoch: U64, later: U64)
    requires AttemptsInv(attempts, tasks, epoch) && epoch <= later
    requires forall t, i :: t in attempts && 0 <= i < |attempts[t]| ==> attempts[t][i].committed
    ensures AttemptsInv(attempts, tasks, later)
  {
    forall t, i | t in attempts && 0 <= i < |attempts[t]| ensures AttemptOk(attempts[t][i], t, later) {
      assert AttemptOk(attempts[t][i], t, epoch);
    }
  }

  /** The core that start builds around a rebuilt graph, before its first save. */
  function Awakened(g: Graph, d: DurableState, now: Int64): Core {
    var d1 := d.(epoch := (d.epoch + 1) % TWO_64);
    Core(Recovered(Restored(g, d)), d.attempts, map[], map[], RecoveryTimers(Restored(g, d), now), map[], map[], {},
         map[], map[], 0, d1, d)
  }

  lemma AwakenedGraph(g: Graph, d: DurableState)
    requires DurableInv(d) && Partial(g, d.tasks, d.tasks.Keys)
    ensures GraphInv(Recovered(Restored(g, d))) && Recovered(Restored(g, d)).tasks == d.tasks
  {
    WholeGraphInv(g, d);
    PartialIsWhole(g, d.tasks);
    RecoveredStates(g, d);
    RecoveredGraphInv(g, Recovered(Restored(g, d)).states);
    hide GraphInv, DurableInv;
  }

  lemma AwakenedDepSafe(g: Graph, d: DurableState)
    requires DurableInv(d) && Partial(g, d.tasks, d.tasks.Keys)
    ensures DepSafe(Recovered(Restored(g, d)).deps, Recovered(Restored(g, d)).states)
  {
    hide DepSafe, DepsOf, Acyclic, AttemptsInv;
    PartialIsWhole(g, d.tasks);
    RecoveredStates(g, d);
    RecoveredDepSafe(g.deps, d.taskStates, Recovered(Restored(g, d)).states, d.tasks);
  }

  lemma AwakenedSound(g: Graph, d: DurableState)
    requires DurableInv(d) && Partial(g, d.tasks, d.tasks.Keys) && d.epoch + 1 < TWO_64
    ensures Sound(Recovered(Restored(g, d)), d.attempts, map[], map[], d.epoch + 1)
  {
    assert AttemptsInv(d.attempts, d.tasks.Keys, d.epoch);
    hide GraphInv, DepSafe, Recovered, Restored, AttemptsInv, Partial, DurableInv;
    AwakenedGraph(g, d);
    AwakenedDepSafe(g, d);
    LaterEpoch(d.attempts, d.tasks.Keys, d.epoch, d.epoch + 1);
  }

  lemma AwakenedInv(g: Graph, d: DurableState, now: Int64)
    requires DurableInv(d) && Partial(g, d.tasks, d.tasks.Keys) && d.epoch + 1 < TWO_64
    ensures Inv(Awakened(g, d, now)) && Epoch(Awakened(g, d, now)) == d.epoch + 1
  {
    hide DurableInv, Sound, Partial, Recovered, Restored, RecoveryTimers;
    AwakenedSound(g, d);
  }

  lemma StartShape(g: Graph, d: DurableState, now: Int64, saved: bool)
    requires Rebuild(EMPTY_GRAPH, d.tasks, Walk(d.tasks.Keys)) == Ok(g)
    ensures Start(d, now, saved) == Ok(Persist(Awakened(g, d, now), saved))
  {
    hide Rebuild, Recovered, RecoveryTimers, Persist;
    assert Restored(g, d.(epoch := (d.epoch + 1) % TWO_64)) == Restored(g, d);
  }

  lemma DurableIsGood(d: DurableState)
    requires DurableInv(d)
    ensures GoodTasks(d.tasks) && d.taskStates.Keys == d.tasks.Keys
  {
  }

  /** The same tasks and edges; every state that was not active is kept; a task saved active
      waits for a retry if its policy allows one after the loss of a node, and has failed
      otherwise, so that no task is active; the saved attempts and no reservation. */
  ghost predicate Resumes(c: Core, d: DurableState) {
    && c.graph.tasks == d.tasks && c.graph.deps == DepsOf(d.tasks)
    && c.graph.states.Keys == d.tasks.Keys == d.taskStates.Keys
    && (forall t :: t in d.tasks ==> !Lifecycle.IsActive(c.graph.states[t]) && c.graph.states[t] == Resumed(d, t))
    && c.attempts == d.attempts && c.reservations == map[]
  }

  ghost predicate Interrupted(d: DurableState, t: Id) {
    t in d.tasks && t in d.taskStates && d.taskStates[t] in {PLANNING, RESERVED, DISPATCHING, RUNNING}
  }

  ghost predicate Forgiven(d: DurableState, t: Id) {
    Interrupted(d, t) && d.tasks[t].retry.retryOnNodeLoss && d.tasks[t].retry.maxAttempts > 1
  }

  ghost function Resumed(d: DurableState, t: Id): TaskState
    requires t in d.taskStates
  {
    if !Interrupted(d, t) then d.taskStates[t] else if Forgiven(d, t) then RETRY_PENDING else FAILED
  }

  /** Exactly the tasks to be retried have a timer, each its own back-off after the start;
      nothing is held, asked for, placed or known of nodes; the saved workloads are kept. */
  ghost predicate Rearmed(c: Core, d: DurableState, now: Int64) {
    && (forall t :: t in c.retryReadyAt <==> Forgiven(d, t))
    && (forall t :: t in c.retryReadyAt ==> c.retryReadyAt[t] == now + AsInt64(d.tasks[t].retry.retryBackoffMs))
    && c.taskReservation == map[] && c.cancelRequested == {} && c.nodes == map[] && c.placements == map[]
    && c.readyAt == map[] && c.dispatchAt == map[] && c.durable.workloads == d.workloads
  }

  lemma ResumedIs(d: DurableState, t: Id)
    requires t in d.tasks && t in d.taskStates
    ensures RecoveredState(d.tasks[t], d.taskStates[t]) == Resumed(d, t) && !Lifecycle.IsActive(Resumed(d, t))
  {
  }

  lemma AwakenedRearmed(g: Graph, d: DurableState, now: Int64, saved: bool)
    requires Partial(g, d.tasks, d.tasks.Keys) && d.taskStates.Keys == d.tasks.Keys
    ensures Rearmed(Persist(Awakened(g, d, now), saved), d, now)
  {
    PartialIsWhole(g, d.tasks);
    assert g.states.Keys == g.tasks.Keys;
    hide Partial, Recovered, DepsOf, CommittedAttempts, AttemptCounts, InKeyOrder;
  }

  lemma AwakenedResumes(g: Graph, d: DurableState, now: Int64, saved: bool)
    requires Partial(g, d.tasks, d.tasks.Keys) && d.taskStates.Keys == d.tasks.Keys
    ensures Resumes(Persist(Awakened(g, d, now), saved), d)
  {
    PartialIsWhole(g, d.tasks);
    assert g.states.Keys == g.tasks.Keys;
    RecoveredStates(g, d);
    forall t | t in d.tasks
      ensures RecoveredState(d.tasks[t], d.taskStates[t]) == Resumed(d, t) && !Lifecycle.IsActive(Resumed(d, t))
    {
      ResumedIs(d, t);
    }
    hide Partial, Recovered, Restored, RecoveryTimers, DepsOf, Snapshot, RecoveredState, Resumed;
  }

  /** Recovery: a coordinator started on any good record comes up, resumes it under the
      next epoch, and satisfies the invariant. */
  lemma StartRecovers(d: DurableState, now: Int64, saved: bool)
    requires DurableInv(d) && d.epoch + 1 < TWO_64
    ensures Start(d, now, saved).Ok?
    ensures Inv(Start(d, now, saved).value) && Resumes(Start(d, now, saved).value, d)
    ensures Rearmed(Start(d, now, saved).value, d, now)
    ensures Epoch(Start(d, now, saved).value) == d.epoch + 1
    ensures saved ==> Synced(Start(d, now, saved).value)
  {
    DurableIsGood(d);
    var g := RebuildFromDisk(d);
    StartShape(g, d, now, saved);
    AwakenedInv(g, d, now);
    AwakenedResumes(g, d, now, saved);
    AwakenedRearmed(g, d, now, saved);
    hide DurableInv, Sound, Partial, Awakened, GoodTasks, Start, Resumes, Rearmed, Synced;
    PersistInv(Awakened(g, d, now), saved);
  }

  /** A restart of a coordinator whose last save succeeded changes no task and no edge in
      either direction, and keeps every committed attempt. */
  lemma RestartKeepsGraph(c: Core, now: Int64, saved: bool)
    requires Inv(c) && Synced(c) && Epoch(c) + 1 < TWO_64
    ensures Start(c.disk, now, saved).Ok?
    ensures var c1 := Start(c.disk, now, saved).value;
            && c1.graph.tasks == c.graph.tasks && c1.graph.deps == c.graph.deps
            && (forall d :: Succ(c1.graph.dependents, d) == Succ(c.graph.dependents, d))
            && c1.attempts == CommittedAttempts(c.attempts)
            && Epoch(c1) == Epoch(c) + 1
  {
    hide Start, DurableInv, DepSafe, Owned, BookInv, AttemptsInv, Acyclic, Complete;
    StartRecovers(c.disk, now, saved);
    var c1 := Start(c.disk, now, saved).value;
    WellFormedDeps(c.graph);
    forall d ensures Succ(c1.graph.dependents, d) == Succ(c.graph.dependents, d) {
      forall t ensures t in Succ(c1.graph.dependents, d) <==> t in Succ(c.graph.dependents, d) {
        assert t in Succ(c1.graph.dependents, d) <==> d in Succ(c1.graph.deps, t);
        assert t in Succ(c.graph.dependents, d) <==> d in Succ(c.graph.deps, t);
      }
    }
  }
}
