/**
 The scheduler and the coordinator together: a round that uses the placement engine sends a
 task to the best eligible node or nowhere.
 */
module Scheduling {
  import opened Basics
  import opened Types
  import opened TaskGraphs
  import opened Reservations
  import opened CoordinatorCore
  import opened CoordinatorInvariants
  import opened CoordinatorSteps
  import opened CoordinatorRecovery
  import opened CoordinatorRuns
  import opened CoordinatorTheorems
  import opened CostModels
  import opened Placement
  import Lifecycle

  // ----- nodes are filed under their own ids -----

  lemma PersistNodes(c: Core, saved: bool)
    ensures Persist(c, saved).nodes == c.nodes
  {
    hide Snapshot;
  }

  lemma SubmitNodes(c: Core, task: ComputeTask, id: Id, name: Bytes, stopping: bool, now: Int64, saved: bool)
    ensures Submit(c, task, id, name, stopping, now, saved).nodes == c.nodes
  {
    hide Persist, Added, SetState, InitialState, WithWorkload;
    PersistNodes(c.(graph := SetState(Added(c.graph, task).0, task.id, InitialState(task)),
                    durable := WithWorkload(c.durable, id, name), readyAt := c.readyAt[task.id := now]), saved);
  }

  lemma CancelNodes(c: Core, t: Id, saved: bool)
    ensures Cancel(c, t, saved).nodes == c.nodes
  {
    hide Persist, SetState, WithEntry, ReleasedBook, Lifecycle.IsLegal, Lifecycle.IsTerminal;
    var c1 := ReleaseFor(SetTask(c, t, CANCELLED), t);
    PersistNodes(c1.(cancelRequested := c1.cancelRequested - {t}), saved);
  }

  lemma StartAttemptNodes(c: Core, a: Id, startedAt: Int64, device: Bytes, saved: bool)
    ensures StartAttempt(c, a, startedAt, device, saved).nodes == c.nodes
  {
    hide Snapshot, SetState, Known, Put;
  }

  lemma CompleteNodes(c: Core, a: Id, reservation: Id, out: Output, now: Int64, saved: bool)
    ensures CompleteAttempt(c, a, reservation, out, now, saved).nodes == c.nodes
  {
    hide Persist, SetState, Known, ReleasedBook, MakeReady, Unblocked, CommittedAttempt, CompletionValid;
    if Known(c.attempts, a) {
      var p := Find(c.attempts, a);
      var at := c.attempts[p.task][p.index];
      var c1 := c.(attempts := Put(c.attempts, p,
                     at.(state := ATTEMPT_CANCELLED, failureKind := FAILURE_CANCELLED,
                         failureReason := CANCELLED_TEXT, completedAtMs := now)));
      PersistNodes(ReleaseFor(SetTask(c1, at.taskId, PREEMPTED), at.taskId), saved);
      var c2 := c.(attempts := Put(c.attempts, p, CommittedAttempt(at, out, now)));
      var c3 := ReleaseFor(SetTask(c2, at.taskId, SUCCEEDED), at.taskId);
      PersistNodes(Unblock(c3.(cancelRequested := c3.cancelRequested - {at.taskId}), at.taskId, now), saved);
    }
  }

  lemma FailNodes(c: Core, a: Id, kind: FailureKind, reason: Bytes, now: Int64, saved: bool)
    ensures FailAttempt(c, a, kind, reason, now, saved).nodes == c.nodes
  {
    hide Snapshot, SetState, Known, ReleasedBook, StartBackoff, MayRetry;
  }

  lemma CancelledNodes(c: Core, a: Id, reason: Bytes, now: Int64, saved: bool)
    ensures CancelledByNode(c, a, reason, now, saved).nodes == c.nodes
  {
    hide Snapshot, SetState, Known, ReleasedBook;
  }

  lemma SweepNodes(c: Core, t: Id, now: Int64, saved: bool)
    ensures Requeue(c, t, now, saved).nodes == c.nodes
    ensures Retry(c, t, now, saved).nodes == c.nodes
    ensures Expire(c, t, now, saved).nodes == c.nodes
  {
    hide Persist, SetState, ReleasedBook;
    var c1 := SetTask(ReleaseFor(c, t), t, READY);
    PersistNodes(c1.(readyAt := c1.readyAt[t := now]), saved);
    PersistNodes(SetTask(c, t, READY).(readyAt := c.readyAt[t := now]), saved);
    PersistNodes(SetTask(ReleaseFor(c, t), t, EXPIRED), saved);
  }

  lemma ScheduleNodes(c: Core, t: Id, ch: Choice, now: Int64, saved: bool)
    ensures Schedule(c, t, ch, now, saved).nodes == c.nodes
  {
    var c1 := RecordPlacement(c, t, ch.decision);
    hide Persist, SetState, Refusals, ChosenExecutor, SlotsFor, NewAttempt, Fresh;
    PersistNodes(SetTask(c, t, EXPIRED), saved);
    if t in c.graph.tasks && ch.decision.chosenNode.Some? && ch.decision.chosenNode.value in c.nodes {
      var n := c.nodes[ch.decision.chosenNode.value];
      var e := ChosenExecutor(c.graph.tasks[t], ch.decision);
      assert Dispatch(c1, t, n, e, ch, now).nodes == c.nodes;
      hide Dispatch;
      PersistNodes(Dispatch(c1, t, n, e, ch, now), saved);
    }
  }

  lemma {:induction false} LoseTasksNodes(c: Core, ts: seq<Id>, now: Int64)
    ensures LoseTasks(c, ts, now).nodes == c.nodes
    decreases |ts|
  {
    hide LostGraph, ReleasedBook, StartBackoff;
    if ts != [] {
      LoseTasksNodes(LoseTask(c, ts[0], now), ts[1..], now);
    }
  }

  lemma LoseNodeKeyed(c: Core, n: Id, now: Int64, saved: bool)
    requires Keyed(c.nodes)
    ensures Keyed(LoseNode(c, n, now, saved).nodes)
  {
    hide Persist, ReleaseScope, Affected, LoseTasks;
    if n in c.nodes && c.nodes[n].health != Offline {
      var c1 := c.(nodes := c.nodes[n := c.nodes[n].(health := Offline, connected := false)],
                   reservations := ReleaseScope(c.reservations, OfNode(n)));
      LoseTasksNodes(c1, Affected(c1.attempts, n), now);
      PersistNodes(LoseTasks(c1, Affected(c1.attempts, n), now), saved);
    }
  }

  lemma NewsKeyed(nodes: map<Id, NodeRecord>, current: U64, n: Id, news: NodeNews, now: Int64)
    requires Keyed(nodes)
    ensures Keyed(NodesAfter(nodes, current, n, news, now))
  {
  }

  lemma MessageKeyed(c: Core, e: Event)
    requires Keyed(c.nodes)
    ensures Keyed(MessageStep(c, e).nodes)
  {
    hide Submit, Cancel, StartAttempt, CompleteAttempt, FailAttempt, CancelledByNode, Keyed, NodesAfter, Release;
    if e.step.DoNodeNews? {
      NewsKeyed(c.nodes, Epoch(c), e.step.n, e.step.news, e.now);
    } else {
      MessageNodes(c, e);
    }
  }

  lemma MessageNodes(c: Core, e: Event)
    requires !e.step.DoNodeNews?
    ensures MessageStep(c, e).nodes == c.nodes
  {
    hide Submit, Cancel, StartAttempt, CompleteAttempt, FailAttempt, CancelledByNode;
    match e.step {
      case DoSubmit(task, id, name, stopping) => SubmitNodes(c, task, id, name, stopping, e.now, e.saved);
      case DoCancel(t) => CancelNodes(c, t, e.saved);
      case DoStarted(a, startedAt, device) => StartAttemptNodes(c, a, startedAt, device, e.saved);
      case DoComplete(a, reservation, out) => CompleteNodes(c, a, reservation, out, e.now, e.saved);
      case DoFailed(a, kind, reason) => FailNodes(c, a, kind, reason, e.now, e.saved);
      case DoCancelled(a, reason) => CancelledNodes(c, a, reason, e.now, e.saved);
      case _ =>
    }
  }

  lemma RestartNodes(c: Core, e: Event)
    requires Inv(c) && Enabled(c, e) && e.step.DoRestart?
    ensures Next(c, e).nodes == map[]
  {
    StartNodes(c.disk, e.now, e.saved);
    hide Start, Inv;
  }

  lemma StartNodes(d: DurableState, now: Int64, saved: bool)
    requires DurableInv(d)
    ensures Start(d, now, saved).Ok? && Start(d, now, saved).value.nodes == map[]
  {
    DurableIsGood(d);
    var g := RebuildFromDisk(d);
    StartShape(g, d, now, saved);
    hide Start, DurableInv, Persist, Recovered, Restored, RecoveryTimers;
    PersistNodes(Awakened(g, d, now), saved);
  }

  lemma NextKeyed(c: Core, e: Event)
    requires Inv(c) && Enabled(c, e) && Keyed(c.nodes)
    ensures Keyed(Next(c, e).nodes)
  {
    hide Inv, Keyed, MessageStep, LoseNode, Requeue, Retry, Expire, Schedule, Persist, Start, Known;
    match e.step {
      case DoLoseNode(n) => LoseNodeKeyed(c, n, e.now, e.saved);
      case DoRequeue(t) => SweepNodes(c, t, e.now, e.saved);
      case DoRetry(t) => SweepNodes(c, t, e.now, e.saved);
      case DoExpire(t) => SweepNodes(c, t, e.now, e.saved);
      case DoSchedule(t, ch) => ScheduleNodes(c, t, ch, e.now, e.saved);
      case DoPersist => PersistNodes(c, e.saved);
      case DoRestart =>
        RestartNodes(c, e);
        NoNodesKeyed();
      case _ => MessageKeyed(c, e);
    }
  }

  lemma NoNodesKeyed()
    ensures Keyed(map[])
  {
  }

  lemma {:induction false} RunKeyed(c: Core, run: seq<Event>)
    requires Inv(c) && Possible(c, run) && Keyed(c.nodes)
    ensures Keyed(After(c, run).nodes)
    decreases |run|
  {
    hide Inv, Next, Enabled, Keyed;
    if run != [] {
      NextInv(c, run[0]);
      NextKeyed(c, run[0]);
      RunKeyed(Next(c, run[0]), run[1..]);
    }
  }

  /** In every reachable state each node is filed under its own id, as the placement asks. */
  lemma ReachableKeyed(c: Core)
    requires Reachable(c)
    ensures Keyed(c.nodes)
  {
    var c0, run :| Initial(c0) && Possible(c0, run) && After(c0, run) == c;
    var now, saved :| Start(EMPTY_DISK, now, saved) == Ok(c0);
    EmptyDiskInv();
    StartNodes(EMPTY_DISK, now, saved);
    InitialInv(c0);
    hide Inv, Start, DurableInv;
    RunKeyed(c0, run);
  }

  // ----- one placing step with the engine's decision -----

  /** The view of a placement made in state `c` for task `t`. */
  ghost predicate Faces(v: View, c: Core, t: Id) {
    t in c.graph.tasks && v.task == c.graph.tasks[t] && v.nodes == c.nodes && v.book == c.reservations
  }

  /** The recorded decision says what the engine chose. */
  ghost predicate Reports(d: PlacementDecision, v: View) {
    && (d.feasible <==> exists n :: Candidate(v, n))
    && (d.feasible ==> d.chosenNode.Some? && IsChoice(v, d.chosenNode.value))
    && (d.feasible ==> d.chosenExecutor == Some(ScoredOf(v, v.nodes[d.chosenNode.value]).executor))
  }

  /** `t` is on its way to node `n` and executor `e`, which had room for it. */
  ghost predicate SentTo(c: Core, c1: Core, t: Id, n: Id, e: ExecutorType)
    requires t in c.graph.tasks
  {
    var task, before := c.graph.tasks[t], AttemptsOf(c.attempts, t);
    && n in c.nodes && c.nodes[n].connected
    && Refusals(c.reservations, c.nodes[n], e, SlotsFor(task, e), task.scratchMemoryBytes) == None
    && TaskStateOf(c1, t) == DISPATCHING
    && t in c1.attempts && |c1.attempts[t]| == |before| + 1
    && c1.attempts[t][|before|].nodeId == n && c1.attempts[t][|before|].executor == e
  }

  ghost predicate Stays(c: Core, c1: Core, t: Id) {
    TaskStateOf(c1, t) == READY && c1.attempts == c.attempts && c1.reservations == c.reservations
  }

  lemma DispatchSends(c: Core, t: Id, ch: Choice, now: Int64, saved: bool, n: Id, e: ExecutorType)
    requires t in c.graph.tasks && TaskStateOf(c, t) == READY && n in c.nodes && c.nodes[n].connected && c.nodes[n].id == n
    requires Refusals(c.reservations, c.nodes[n], e, SlotsFor(c.graph.tasks[t], e), c.graph.tasks[t].scratchMemoryBytes) == None
    ensures SentTo(c, Persist(Dispatch(RecordPlacement(c, t, ch.decision), t, c.nodes[n], e, ch, now), saved), t, n, e)
  {
    hide Persist, Refusals, Fresh, SlotsFor;
    PersistFrame(Dispatch(RecordPlacement(c, t, ch.decision), t, c.nodes[n], e, ch, now), saved);
  }

  /** A placing step with the engine's decision leaves the task ready, or sends it to the best
      eligible node, which is connected and has room, on the executor the task asks for. With
      no eligible node it leaves the task ready. */
  lemma PlacedOnChoice(c: Core, t: Id, ch: Choice, now: Int64, saved: bool, v: View)
    requires Keyed(c.nodes) && Faces(v, c, t) && Reports(ch.decision, v)
    requires TaskStateOf(c, t) == READY && !(v.task.hasDeadline && now >= v.task.deadlineMs)
    ensures var c1 := Schedule(c, t, ch, now, saved);
            || Stays(c, c1, t)
            || (ch.decision.feasible && IsChoice(v, ch.decision.chosenNode.value)
                && SentTo(c, c1, t, ch.decision.chosenNode.value, ch.decision.chosenExecutor.value))
    ensures !(exists n :: Candidate(v, n)) ==> Stays(c, Schedule(c, t, ch, now, saved), t)
  {
    hide Candidate, ScoredOf, IsChoice, Refusals, Persist, Dispatch, SlotsFor, SentTo;
    if ch.decision.feasible && ch.decision.chosenNode.value in c.nodes && c.nodes[ch.decision.chosenNode.value].connected {
      var n, e := ch.decision.chosenNode.value, ch.decision.chosenExecutor.value;
      if Refusals(c.reservations, c.nodes[n], e, SlotsFor(v.task, e), v.task.scratchMemoryBytes) == None {
        DispatchSends(c, t, ch, now, saved, n, e);
      }
    }
  }
}
