/**
 Each handler keeps the coordinator invariant.
 */
module CoordinatorSteps {
  import opened Basics
  import opened Types
  import opened Paths
  import opened TaskGraphs
  import opened Reservations
  import opened CoordinatorCore
  import opened CoordinatorInvariants
  import Lifecycle

  // ----- submit -----

  /** A submitted task whose dependencies are all present cannot be refused: nothing
      depends on it yet, so it cannot close a cycle. */
  lemma SubmissionAccepted(g: Graph, task: ComputeTask)
    requires GraphInv(g) && task.id !in g.tasks
    requires forall d :: d in task.dependencies ==> d in g.tasks
    ensures Added(g, task) == (Extended(g, task), Done)
  {
    assert task.id !in DepSet(task);
    NewNodeCycles(g.deps, task.id, DepSet(task));
    if !Acyclic(g.deps[task.id := DepSet(task)]) {
      NewCycleHasOldEdge(g.deps, task.id, DepSet(task));
      assert false;
    }
  }

  lemma ExtendedGraphInv(g: Graph, task: ComputeTask)
    requires GraphInv(g) && task.id !in g.tasks
    requires forall d :: d in task.dependencies ==> d in g.tasks
    ensures GraphInv(Extended(g, task))
  {
    SubmissionAccepted(g, task);
    ExtendedWellFormed(g, task);
    ExtendedInverse(g, task);
    AddedDecides(g, task);
  }

  lemma ExtendedDepSafe(g: Graph, task: ComputeTask)
    requires WellFormed(g) && DepSafe(g.deps, g.states) && task.id !in g.tasks
    ensures DepSafe(Extended(g, task).deps, Extended(g, task).states)
  {
    var h := Extended(g, task);
    forall t, d | t in h.states && !Waiting(h.states[t]) && d in Succ(h.deps, t)
      ensures d in h.states && h.states[d] == SUCCEEDED
    {
      assert t in g.states && d in Succ(g.deps, t);
    }
  }

  lemma ExtendedOwned(m: Book, owner: map<Id, Id>, g: Graph, task: ComputeTask)
    requires WellFormed(g) && Owned(m, owner, g.states) && task.id !in g.tasks
    ensures Owned(m, owner, Extended(g, task).states) && Holdless(m, task.id)
  {
  }

  lemma ExtendedMemoryInv(c: Core, task: ComputeTask)
    requires MemoryInv(c) && task.id !in c.graph.tasks
    requires forall d :: d in task.dependencies ==> d in c.graph.tasks
    ensures MemoryInv(c.(graph := Extended(c.graph, task)))
    ensures Holdless(c.reservations, task.id)
  {
    ExtendedGraphInv(c.graph, task);
    ExtendedDepSafe(c.graph, task);
    ExtendedOwned(c.reservations, c.taskReservation, c.graph, task);
    hide GraphInv, DepSafe, Owned, BookInv, Holdless, UniqueIds;
  }

  lemma GraphIsSound(c: Core)
    requires MemoryInv(c)
    ensures GraphInv(c.graph) && AttemptsInv(c.attempts, c.graph.tasks.Keys, Epoch(c))
  {
  }

  /** The submitted task enters Ready only when it waits for nothing. */
  lemma SubmittedInv(c: Core, task: ComputeTask)
    requires MemoryInv(c) && task.id !in c.graph.tasks
    requires forall d :: d in task.dependencies ==> d in c.graph.tasks
    ensures Added(c.graph, task) == (Extended(c.graph, task), Done)
    ensures MemoryInv(c.(graph := SetState(Extended(c.graph, task), task.id, InitialState(task))))
  {
    GraphIsSound(c);
    SubmissionAccepted(c.graph, task);
    hide Sound, GraphInv, AttemptsInv, Added, SetState;
    ExtendedMemoryInv(c, task);
    var c1 := c.(graph := Extended(c.graph, task));
    assert task.dependencies == [] ==> Succ(c1.graph.deps, task.id) == {};
    SetTaskInv(c1, task.id, InitialState(task));
  }

  lemma SubmitInv(c: Core, task: ComputeTask, workloadId: Id, workloadName: Bytes, stopping: bool, now: Int64, saved: bool)
    requires Inv(c)
    ensures Inv(Submit(c, task, workloadId, workloadName, stopping, now, saved))
  {
    hide Sound, DurableInv, Persist, Added, Extended, SetState, InitialState;
    if task.id !in c.graph.tasks && !stopping && task.id != ZERO_ID
       && !(exists d :: d in task.dependencies && d !in c.graph.tasks) {
      SubmittedInv(c, task);
      var c1 := c.(graph := SetState(Extended(c.graph, task), task.id, InitialState(task)),
                   durable := WithWorkload(c.durable, workloadId, workloadName),
                   readyAt := c.readyAt[task.id := now]);
      PersistInv(c1, saved);
    }
  }

  // ----- cancel, release -----

  lemma CancelWaiting(c: Core, t: Id)
    requires MemoryInv(c)
    ensures MemoryInv(ReleaseFor(SetTask(c, t, CANCELLED), t))
  {
    hide Sound;
    ReleaseForInv(c, t);
    SetTaskInv(ReleaseFor(c, t), t, CANCELLED);
  }

  lemma CancelInv(c: Core, t: Id, saved: bool)
    requires Inv(c)
    ensures Inv(Cancel(c, t, saved))
  {
    hide Sound, DurableInv, Persist, SetState, ReleasedBook, WithEntry;
    hide Lifecycle.IsLegal, Lifecycle.IsTerminal;
    if t in c.graph.tasks && !Lifecycle.IsTerminal(TaskStateOf(c, t)) {
      if TaskStateOf(c, t) == RUNNING {
        AddEmptyList(c, t);
      } else if Lifecycle.IsLegal(TaskStateOf(c, t), CANCELLED) {
        CancelWaiting(c, t);
        var c1 := ReleaseFor(SetTask(c, t, CANCELLED), t);
        PersistInv(c1.(cancelRequested := c1.cancelRequested - {t}), saved);
      }
    }
  }

  lemma AddEmptyList(c: Core, t: Id)
    requires MemoryInv(c) && t in c.graph.tasks
    ensures MemoryInv(c.(attempts := WithEntry(c.attempts, t)))
  {
    if t !in c.attempts {
      var m := c.attempts[t := []];
      forall p, q | IsSpot(m, p) && IsSpot(m, q) && IdAt(m, p) == IdAt(m, q) ensures p == q {
        assert IsSpot(c.attempts, p) && IsSpot(c.attempts, q) && IdAt(c.attempts, p) == IdAt(c.attempts, q);
      }
    }
  }

  lemma ReleaseByNodeInv(c: Core, r: Id)
    requires Inv(c)
    ensures Inv(ReleaseByNode(c, r))
  {
  }

  // ----- attempt messages -----

  /** Changing the found attempt, keeping its id, task and epoch. */
  lemma PutFound(c: Core, a: Id, at: Attempt)
    requires MemoryInv(c) && Known(c.attempts, a)
    requires var p := Find(c.attempts, a); at.id == a && AttemptOk(at, p.task, Epoch(c))
    ensures MemoryInv(c.(attempts := Put(c.attempts, Find(c.attempts, a), at)))
  {
    PutInv(c.attempts, c.graph.tasks.Keys, Epoch(c), Find(c.attempts, a), at);
  }

  lemma StartAttemptInv(c: Core, a: Id, startedAt: Int64, device: Bytes, saved: bool)
    requires Inv(c)
    ensures Inv(StartAttempt(c, a, startedAt, device, saved))
  {
    hide Sound, DurableInv, Persist, SetState, ReleasedBook;
    if Known(c.attempts, a) {
      FoundAttempt(c, a);
      var p := Find(c.attempts, a);
      var at := c.attempts[p.task][p.index];
      if at.epoch == Epoch(c) {
        var at1 := at.(state := ATTEMPT_STARTED, startedAtMs := startedAt, device := device);
        PutFound(c, a, at1);
        var c1 := c.(attempts := Put(c.attempts, p, at1));
        IllegalFromWaiting(c1.graph, at.taskId, RUNNING);
        if !Waiting(TaskStateOf(c1, at.taskId)) { SetTaskInv(c1, at.taskId, RUNNING); }
        PersistInv(SetTask(c1, at.taskId, RUNNING), saved);
      }
    }
  }

  /** Move a task without reservation to a state that is past waiting. */
  lemma RetiredInv(c: Core, t: Id, s: TaskState)
    requires MemoryInv(c) && Holdless(c.reservations, t)
    requires s == SUCCEEDED || s == FAILED || s == RETRY_PENDING || s == PREEMPTED || s == LOST
    ensures MemoryInv(SetTask(c, t, s))
  {
    hide Sound;
    IllegalFromWaiting(c.graph, t, s);
    if !Waiting(TaskStateOf(c, t)) { SetTaskInv(c, t, s); }
  }

  /** Release, then move to a state that is past waiting and out of execution. */
  lemma RetireInv(c: Core, t: Id, s: TaskState)
    requires MemoryInv(c)
    requires s == SUCCEEDED || s == FAILED || s == RETRY_PENDING || s == PREEMPTED || s == LOST
    ensures MemoryInv(SetTask(ReleaseFor(c, t), t, s))
    ensures MemoryInv(ReleaseFor(SetTask(c, t, s), t))
    ensures Holdless(ReleaseFor(c, t).reservations, t)
  {
    hide Sound, SetState, ReleasedBook;
    ReleaseForInv(c, t);
    RetiredInv(ReleaseFor(c, t), t, s);
  }

  lemma FailAttemptInv(c: Core, a: Id, kind: FailureKind, reason: Bytes, now: Int64, saved: bool)
    requires Inv(c)
    ensures Inv(FailAttempt(c, a, kind, reason, now, saved))
  {
    hide Sound, DurableInv, Persist, SetState, ReleasedBook, StartBackoff, MayRetry, Known;
    if Known(c.attempts, a) {
      FoundAttempt(c, a);
      var p := Find(c.attempts, a);
      var at := c.attempts[p.task][p.index];
      if !(at.epoch != Epoch(c) || at.state == ATTEMPT_SUCCEEDED || at.committed) {
        var at1 := at.(state := ATTEMPT_FAILED, failureKind := kind, failureReason := reason, completedAtMs := now);
        PutFound(c, a, at1);
        var c0 := c.(attempts := Put(c.attempts, p, at1));
        RetireInv(c0, at.taskId, RETRY_PENDING);
        RetireInv(c0, at.taskId, FAILED);
        var retries := at.taskId in c.graph.tasks && MayRetry(c.graph.tasks[at.taskId], at.attemptNumber, kind)
                       && TaskStateOf(c, at.taskId) != SUCCEEDED;
        var c1 := ReleaseFor(c0, at.taskId).(
                    graph := SetState(c.graph, at.taskId, if retries then RETRY_PENDING else FAILED),
                    retryReadyAt := StartBackoff(c.retryReadyAt, c.graph, at.taskId, retries, now));
        PersistInv(c1, saved);
      }
    }
  }

  lemma CancelledByNodeInv(c: Core, a: Id, reason: Bytes, now: Int64, saved: bool)
    requires Inv(c)
    ensures Inv(CancelledByNode(c, a, reason, now, saved))
  {
    hide Sound, DurableInv, Persist, SetState, ReleasedBook;
    if Known(c.attempts, a) {
      FoundAttempt(c, a);
      var p := Find(c.attempts, a);
      var at := c.attempts[p.task][p.index];
      if at.epoch == Epoch(c) {
        var at1 := at.(state := ATTEMPT_CANCELLED, failureKind := FAILURE_CANCELLED, failureReason := reason,
                       completedAtMs := now);
        PutFound(c, a, at1);
        var c1 := c.(attempts := Put(c.attempts, p, at1));
        RetireInv(c1, at.taskId, PREEMPTED);
        PersistInv(SetTask(ReleaseFor(c1, at.taskId), at.taskId, PREEMPTED), saved);
      }
    }
  }

  // ----- completion -----

  lemma MakeReadyGraphInv(g: Graph, ds: set<Id>)
    requires GraphInv(g)
    ensures GraphInv(MakeReady(g, ds))
  {
    var h := MakeReady(g, ds);
    assert h.states.Keys == g.states.Keys;
    forall d, x ensures x in Succ(h.dependents, d) <==> d in Succ(h.deps, x) {
      assert x in Succ(g.dependents, d) <==> d in Succ(g.deps, x);
    }
  }

  lemma MakeReadyDepSafe(g: Graph, t: Id)
    requires DepSafe(g.deps, g.states)
    ensures DepSafe(g.deps, MakeReady(g, Unblocked(g, t)).states)
  {
    var ds := Unblocked(g, t);
    var h := MakeReady(g, ds);
    forall x, d | x in h.states && !Waiting(h.states[x]) && d in Succ(g.deps, x)
      ensures d in h.states && h.states[d] == SUCCEEDED
    {
      if x in ds { assert Satisfied(g, x); }
      assert d in g.states && g.states[d] == SUCCEEDED;
    }
  }

  lemma MakeReadyOwned(m: Book, owner: map<Id, Id>, g: Graph, t: Id)
    requires Owned(m, owner, g.states)
    ensures Owned(m, owner, MakeReady(g, Unblocked(g, t)).states)
  {
  }

  lemma UnblockInv(c: Core, t: Id, now: Int64)
    requires MemoryInv(c)
    ensures MemoryInv(Unblock(c, t, now))
  {
    MakeReadyGraphInv(c.graph, Unblocked(c.graph, t));
    MakeReadyDepSafe(c.graph, t);
    MakeReadyOwned(c.reservations, c.taskReservation, c.graph, t);
    hide GraphInv, DepSafe, Owned, BookInv, AttemptsInv, Unblocked;
  }

  lemma CommitInv(c: Core, a: Id, out: Output, now: Int64, saved: bool)
    requires Inv(c) && Known(c.attempts, a)
    requires c.attempts[Find(c.attempts, a).task][Find(c.attempts, a).index].epoch == Epoch(c)
    ensures var p := Find(c.attempts, a);
            var at := c.attempts[p.task][p.index];
            var c1 := c.(attempts := Put(c.attempts, p, CommittedAttempt(at, out, now)));
            var c2 := ReleaseFor(SetTask(c1, at.taskId, SUCCEEDED), at.taskId);
            Inv(Persist(Unblock(c2.(cancelRequested := c2.cancelRequested - {at.taskId}), at.taskId, now), saved))
  {
    hide Sound, DurableInv, Persist, SetState, ReleasedBook;
    FoundAttempt(c, a);
    var p := Find(c.attempts, a);
    var at := c.attempts[p.task][p.index];
    PutFound(c, a, CommittedAttempt(at, out, now));
    var c1 := c.(attempts := Put(c.attempts, p, CommittedAttempt(at, out, now)));
    RetireInv(c1, at.taskId, SUCCEEDED);
    var c2 := ReleaseFor(SetTask(c1, at.taskId, SUCCEEDED), at.taskId);
    var c3 := c2.(cancelRequested := c2.cancelRequested - {at.taskId});
    UnblockInv(c3, at.taskId, now);
    PersistInv(Unblock(c3, at.taskId, now), saved);
  }

  lemma CompleteAttemptInv(c: Core, a: Id, reservation: Id, out: Output, now: Int64, saved: bool)
    requires Inv(c)
    ensures Inv(CompleteAttempt(c, a, reservation, out, now, saved))
  {
    hide Sound, DurableInv, Persist, SetState, ReleasedBook;
    if Known(c.attempts, a) {
      FoundAttempt(c, a);
      var p := Find(c.attempts, a);
      var at := c.attempts[p.task][p.index];
      if at.committed {
      } else if at.taskId in c.cancelRequested {
        var at1 := at.(state := ATTEMPT_CANCELLED, failureKind := FAILURE_CANCELLED,
                       failureReason := CANCELLED_TEXT, completedAtMs := now);
        PutFound(c, a, at1);
        var c1 := c.(attempts := Put(c.attempts, p, at1));
        RetireInv(c1, at.taskId, PREEMPTED);
        PersistInv(ReleaseFor(SetTask(c1, at.taskId, PREEMPTED), at.taskId), saved);
      } else if CompletionValid(c, at, reservation) {
        CommitInv(c, a, out, now, saved);
      }
    }
  }

  // ----- nodes -----

  lemma LostGraphInv(c: Core, t: Id)
    requires MemoryInv(c) && t in c.graph.tasks && Holdless(c.reservations, t)
    ensures MemoryInv(c.(graph := LostGraph(c.graph, t)))
  {
    hide Sound, SetState, Holdless;
    hide Lifecycle.IsLegal;
    var s := if RetriesAfterLoss(c.graph.tasks[t]) then RETRY_PENDING else FAILED;
    RetiredInv(c, t, LOST);
    RetiredInv(SetTask(c, t, LOST), t, s);
  }

  lemma LoseTaskInv(c: Core, t: Id, now: Int64)
    requires MemoryInv(c)
    ensures MemoryInv(LoseTask(c, t, now))
    ensures LoseTask(c, t, now).attempts == c.attempts
    ensures LoseTask(c, t, now).durable == c.durable && LoseTask(c, t, now).disk == c.disk
  {
    hide Sound, LostGraph, ReleasedBook, StartBackoff;
    if t in c.graph.tasks {
      ReleaseForInv(c, t);
      LostGraphInv(ReleaseFor(c, t), t);
    }
  }

  lemma {:induction false} LoseTasksInv(c: Core, ts: seq<Id>, now: Int64)
    requires MemoryInv(c)
    ensures MemoryInv(LoseTasks(c, ts, now))
    ensures var c1 := LoseTasks(c, ts, now);
            c1.durable == c.durable && c1.disk == c.disk && c1.attempts == c.attempts
    decreases |ts|
  {
    hide Sound, DurableInv, Persist, SetState, ReleasedBook;
    if ts != [] {
      LoseTaskInv(c, ts[0], now);
      LoseTasksInv(LoseTask(c, ts[0], now), ts[1..], now);
    }
  }

  lemma LoseNodeInv(c: Core, n: Id, now: Int64, saved: bool)
    requires Inv(c)
    ensures Inv(LoseNode(c, n, now, saved))
  {
    if n in c.nodes && c.nodes[n].health != Offline {
      var c1 := c.(nodes := c.nodes[n := c.nodes[n].(health := Offline, connected := false)],
                   reservations := ReleaseScope(c.reservations, OfNode(n)));
      ReleaseScopeSound(c, OfNode(n));
      hide Sound, DurableInv, ReleaseScope, Affected, LoseTasks, Persist;
      LoseTasksInv(c1, Affected(c1.attempts, n), now);
      PersistInv(LoseTasks(c1, Affected(c1.attempts, n), now), saved);
    }
  }

  lemma ReleaseScopeSound(c: Core, scope: Scope)
    requires MemoryInv(c)
    ensures Sound(c.graph, c.attempts, ReleaseScope(c.reservations, scope), c.taskReservation, Epoch(c))
  {
    hide GraphInv, DepSafe, AttemptsInv;
  }

  // ----- sweep -----

  lemma RequeueInv(c: Core, t: Id, now: Int64, saved: bool)
    requires Inv(c)
    ensures Inv(Requeue(c, t, now, saved))
  {
    hide Sound, DurableInv, Persist, SetState, ReleasedBook;
    if DispatchTimedOut(c, t, now) {
      ReleaseForInv(c, t);
      SetTaskInv(ReleaseFor(c, t), t, READY);
      var c1 := SetTask(ReleaseFor(c, t), t, READY);
      PersistInv(c1.(readyAt := c1.readyAt[t := now]), saved);
    }
  }

  lemma NotExecutingHoldless(c: Core, t: Id)
    requires MemoryInv(c) && !Executing(TaskStateOf(c, t))
    ensures Holdless(c.reservations, t)
  {
  }

  lemma RetryInv(c: Core, t: Id, now: Int64, saved: bool)
    requires Inv(c)
    ensures Inv(Retry(c, t, now, saved))
  {
    hide Sound, DurableInv, Persist, SetState, ReleasedBook;
    if RetryDue(c, t, now) {
      NotExecutingHoldless(c, t);
      SetTaskInv(c, t, READY);
      PersistInv(SetTask(c, t, READY).(readyAt := c.readyAt[t := now]), saved);
    }
  }

  lemma ExpireInv(c: Core, t: Id, now: Int64, saved: bool)
    requires Inv(c)
    ensures Inv(Expire(c, t, now, saved))
  {
    hide Sound, DurableInv, Persist, SetState, ReleasedBook;
    if DeadlinePassed(c, t, now) {
      ReleaseForInv(c, t);
      SetTaskInv(ReleaseFor(c, t), t, EXPIRED);
      PersistInv(SetTask(ReleaseFor(c, t), t, EXPIRED), saved);
    }
  }

  // ----- dispatch -----

  lemma AppendInv(attempts: map<Id, seq<Attempt>>, tasks: set<Id>, epoch: U64, t: Id, a: Attempt)
    requires AttemptsInv(attempts, tasks, epoch) && t in tasks
    requires AttemptOk(a, t, epoch) && !Known(attempts, a.id)
    ensures AttemptsInv(attempts[t := AttemptsOf(attempts, t) + [a]], tasks, epoch)
  {
    var m := attempts[t := AttemptsOf(attempts, t) + [a]];
    var added := Spot(t, if t in attempts then |attempts[t]| else 0);
    forall p | IsSpot(m, p) && p != added ensures IsSpot(attempts, p) && IdAt(attempts, p) == IdAt(m, p) != a.id {
      assert Holds(attempts, p, IdAt(attempts, p));
    }
    forall p, q | IsSpot(m, p) && IsSpot(m, q) && IdAt(m, p) == IdAt(m, q) ensures p == q {}
  }

  lemma DispatchingReady(g: Graph, t: Id)
    requires t in g.states && g.states[t] == READY
    ensures SetState(SetState(SetState(g, t, PLANNING), t, RESERVED), t, DISPATCHING)
            == g.(states := g.states[t := DISPATCHING])
  {
  }

  /** A ready task may start executing: its dependencies have succeeded. */
  lemma DispatchGraphInv(g: Graph, t: Id)
    requires GraphInv(g) && t in g.states && g.states[t] == READY
    ensures GraphInv(g.(states := g.states[t := DISPATCHING]))
  {
    var h := g.(states := g.states[t := DISPATCHING]);
    assert h.states.Keys == g.states.Keys;
    forall d, x ensures x in Succ(h.dependents, d) <==> d in Succ(h.deps, x) {
      assert x in Succ(g.dependents, d) <==> d in Succ(g.deps, x);
    }
  }

  lemma DispatchDepSafe(g: Graph, t: Id)
    requires DepSafe(g.deps, g.states) && t in g.states && g.states[t] == READY
    ensures DepSafe(g.deps, g.states[t := DISPATCHING])
  {
    var states := g.states[t := DISPATCHING];
    forall x, d | x in states && !Waiting(states[x]) && d in Succ(g.deps, x)
      ensures d in states && states[d] == SUCCEEDED
    {
      assert d in g.states && g.states[d] == SUCCEEDED;
    }
  }

  /** The new reservation is the only live one of its task. */
  lemma DispatchOwned(m: Book, owner: map<Id, Id>, states: map<Id, TaskState>, epoch: U64, t: Id, r: Reservation)
    requires BookInv(m, owner, epoch) && Owned(m, owner, states) && Holdless(m, t)
    requires r.id !in m && r.taskId == t && r.epoch == epoch && t in states
    ensures BookInv(m[r.id := r], owner[t := r.id], epoch)
    ensures Owned(m[r.id := r], owner[t := r.id], states[t := DISPATCHING])
  {
  }

  lemma DispatchInv(c: Core, t: Id, n: NodeRecord, e: ExecutorType, ch: Choice, now: Int64)
    requires MemoryInv(c) && t in c.graph.tasks && TaskStateOf(c, t) == READY
    requires ch.reservation !in c.reservations && !Known(c.attempts, ch.attempt)
    ensures MemoryInv(Dispatch(c, t, n, e, ch, now))
  {
    NotExecutingHoldless(c, t);
    assert t in c.graph.states;
    hide GraphInv, DepSafe, BookInv, Owned, AttemptsInv, Holdless, Known, SetState;
    DispatchingReady(c.graph, t);
    DispatchGraphInv(c.graph, t);
    DispatchDepSafe(c.graph, t);
    var task := c.graph.tasks[t];
    DispatchOwned(c.reservations, c.taskReservation, c.graph.states, Epoch(c), t,
                  Fresh(ch.reservation, n, Epoch(c), t, e, SlotsFor(task, e), task.scratchMemoryBytes, now));
    AppendInv(c.attempts, c.graph.tasks.Keys, Epoch(c), t, NewAttempt(Epoch(c), |AttemptsOf(c.attempts, t)|, t, n, e, ch, now));
  }

  lemma DispatchFrame(c: Core, t: Id, n: NodeRecord, e: ExecutorType, ch: Choice, now: Int64)
    requires t in c.graph.tasks
    ensures Dispatch(c, t, n, e, ch, now).durable == c.durable
    ensures Dispatch(c, t, n, e, ch, now).disk == c.disk
  {
  }

  lemma DispatchedInv(c: Core, t: Id, n: NodeRecord, e: ExecutorType, ch: Choice, now: Int64, saved: bool)
    requires Inv(c) && t in c.graph.tasks && TaskStateOf(c, t) == READY
    requires ch.reservation !in c.reservations && !Known(c.attempts, ch.attempt)
    ensures Inv(Persist(Dispatch(c, t, n, e, ch, now), saved))
  {
    hide Sound, DurableInv, Persist, Dispatch, Known, SetState;
    DispatchInv(c, t, n, e, ch, now);
    DispatchFrame(c, t, n, e, ch, now);
    PersistInv(Dispatch(c, t, n, e, ch, now), saved);
  }

  lemma ExpiredInv(c: Core, t: Id, saved: bool)
    requires Inv(c) && TaskStateOf(c, t) == READY
    ensures Inv(Persist(SetTask(c, t, EXPIRED), saved))
  {
    hide Sound, DurableInv, Persist, SetState;
    NotExecutingHoldless(c, t);
    SetTaskInv(c, t, EXPIRED);
    PersistInv(SetTask(c, t, EXPIRED), saved);
  }

  lemma RecordedInv(c: Core, t: Id, d: PlacementDecision)
    requires Inv(c)
    ensures Inv(RecordPlacement(c, t, d))
  {
    hide Sound, DurableInv;
  }

  lemma ScheduleInv(c: Core, t: Id, ch: Choice, now: Int64, saved: bool)
    requires Inv(c)
    requires ch.reservation !in c.reservations && !Known(c.attempts, ch.attempt)
    ensures Inv(Schedule(c, t, ch, now, saved))
  {
    hide Inv, Persist, Dispatch, Known, Refusals, SetTask;
    if t in c.graph.tasks && TaskStateOf(c, t) == READY {
      ExpiredInv(c, t, saved);
      RecordedInv(c, t, ch.decision);
      if ch.decision.chosenNode.Some? && ch.decision.chosenNode.value in c.nodes {
        var n := c.nodes[ch.decision.chosenNode.value];
        var e := ChosenExecutor(c.graph.tasks[t], ch.decision);
        DispatchedInv(RecordPlacement(c, t, ch.decision), t, n, e, ch, now, saved);
      }
    }
  }
}
