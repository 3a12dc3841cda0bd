/**
 What the events besides messages about attempts do: news of nodes, the pieces of a
 sweep, placing, the loss of a node, saving and starting.
 */
module CoordinatorUpkeep {
  import opened Basics
  import opened Types
  import opened Paths
  import opened TaskGraphs
  import opened Reservations
  import opened CoordinatorCore
  import opened CoordinatorInvariants
  import opened CoordinatorSteps
  import opened CoordinatorHistory
  import opened CoordinatorRecovery
  import opened CoordinatorRuns
  import opened CoordinatorEffects
  import Lifecycle

  // ----- news of nodes -----

  /** `n` has the record `r`; nothing else changes. */
  ghost predicate NodeIs(c: Core, c1: Core, n: Id, r: NodeRecord) {
    c1 == c.(nodes := c.nodes[n := r])
  }

  /** A registration, unless it repeats itself on the connection in use, makes the node online
      with what it brings and a session epoch of its own, one above the last. */
  lemma RegistrationSays(c: Core, e: Event)
    requires e.step.DoNodeNews? && e.step.news.Registers?
    ensures var n, c1 := e.step.n, Next(c, e);
            if n in c.nodes && c.nodes[n].connected && e.step.news.sameConnection then c1 == c else
            && n in c1.nodes && NodeIs(c, c1, n, c1.nodes[n])
            && c1.nodes[n].id == n && c1.nodes[n].health == Online && c1.nodes[n].connected
            && c1.nodes[n].capacity == e.step.news.capacity && c1.nodes[n].session == e.step.news.session
            && c1.nodes[n].epoch == Epoch(c) && c1.nodes[n].lastHeartbeatMs == e.now
            && (n !in c.nodes ==> c1.nodes[n].sessionEpoch == 1)
            && (n in c.nodes && c.nodes[n].sessionEpoch < TWO_64 - 1 ==>
                  c1.nodes[n].sessionEpoch == c.nodes[n].sessionEpoch + 1)
  {
  }

  /** So a heartbeat of the session before is stale once a node has registered again: neither
      it nor one of another coordinator epoch changes anything. One that is current puts the
      node online, whether it was draining or lost, and connects nothing. */
  lemma HeartbeatSays(c: Core, e: Event)
    requires e.step.DoNodeNews? && e.step.news.Heartbeats?
    ensures var n, c1 := e.step.n, Next(c, e);
            if n in c.nodes && c.nodes[n].session == e.step.news.session
               && c.nodes[n].sessionEpoch == e.step.news.sessionEpoch && e.step.news.epoch == Epoch(c)
            then
              && n in c1.nodes && NodeIs(c, c1, n, c1.nodes[n])
              && c1.nodes[n].lastHeartbeatMs == e.now && c1.nodes[n].health == Online
              && c1.nodes[n] == c.nodes[n].(lastHeartbeatMs := e.now, health := Online)
            else c1 == c
  {
    assert forall n :: n in c.nodes ==> c.nodes[n := c.nodes[n]] == c.nodes;
  }

  /** Draining and its end touch only the health of a node that is not offline. */
  lemma DrainSays(c: Core, e: Event)
    requires e.step.DoNodeNews? && e.step.news.Drains?
    ensures var n, c1 := e.step.n, Next(c, e);
            if n !in c.nodes || c.nodes[n].health == Offline then c1 == c else
            NodeIs(c, c1, n, c.nodes[n].(health := if e.step.news.drain then Draining else Online))
  {
  }

  /** How long a silent node has. */
  ghost predicate Silent(r: NodeRecord, timeoutMs: int, now: Int64) {
    now - r.lastHeartbeatMs > timeoutMs
  }

  /** A node whose connection in use breaks is disconnected, and counts as silent as soon as
      more than 100 milliseconds have passed without a heartbeat. */
  lemma DisconnectSays(c: Core, e: Event, later: Int64)
    requires e.step.DoNodeNews? && e.step.news.Disconnects?
    ensures var n, c1 := e.step.n, Next(c, e);
            if n !in c.nodes || c.nodes[n].health == Offline || !e.step.news.currentConnection then c1 == c else
            && n in c1.nodes && NodeIs(c, c1, n, c1.nodes[n])
            && c1.nodes[n] == c.nodes[n].(connected := false, lastHeartbeatMs := c1.nodes[n].lastHeartbeatMs)
            && (Silent(c1.nodes[n], e.step.news.timeoutMs, later) <==> later - e.now > 100)
  {
  }

  // ----- releases and saves -----

  lemma EpochOfHeld(c: Core, r: Id)
    requires MemoryInv(c) && r in c.reservations
    ensures c.reservations[r].epoch == Epoch(c)
  {
  }

  /** A release asked for by a node releases that reservation, if there is one, and nothing else. */
  lemma ReleaseSays(c: Core, e: Event)
    requires MemoryInv(c) && e.step.DoRelease?
    ensures var r, c1 := e.step.r, Next(c, e);
            if r !in c.reservations then c1 == c else
            c1 == c.(reservations := c.reservations[r := c.reservations[r].(released := true)])
  {
    var r := e.step.r;
    hide MemoryInv;
    if r in c.reservations {
      EpochOfHeld(c, r);
      if c.reservations[r].released {
        assert c.reservations[r := c.reservations[r].(released := true)] == c.reservations;
      }
    }
  }

  lemma WalkFirst(s: set<Id>)
    requires s != {}
    ensures Walk(s) == [Least(s)] + Walk(s - {Least(s)})
  {
    hide Least;
  }

  lemma {:induction false} KeyOrder(m: map<Id, StoredPlacement>)
    ensures |InKeyOrder(m)| == |m.Keys|
    ensures forall i :: 0 <= i < |m.Keys| ==> InKeyOrder(m)[i] == m[Walk(m.Keys)[i]]
    decreases m.Keys
  {
    if m != map[] {
      var k := Least(m.Keys);
      var rest := m - {k};
      KeyOrder(rest);
      WalkFirst(m.Keys);
      assert rest.Keys == m.Keys - {k};
      hide Walk, Least;
      assert InKeyOrder(m) == [m[k]] + InKeyOrder(rest);
      forall i | 0 <= i < |m.Keys| ensures InKeyOrder(m)[i] == m[Walk(m.Keys)[i]] {
        if i > 0 {
          assert InKeyOrder(rest)[i - 1] == rest[Walk(rest.Keys)[i - 1]];
        }
      }
    }
  }

  /** What a save records: the epoch, tasks and states as they are, of each task the committed
      attempts in order and the number of all of them, and every placement once, in id order. */
  lemma SaveRecords(c: Core, saved: bool)
    ensures var d := Persist(c, saved).durable;
            && d.epoch == c.durable.epoch && d.workloads == c.durable.workloads
            && d.tasks == c.graph.tasks && d.taskStates == c.graph.states
            && (forall t, x :: (t in d.attempts && x in d.attempts[t]) <==> t in c.attempts && x in c.attempts[t] && x.committed)
            && (forall t :: t in d.attempts ==> d.attempts[t] != [])
            && d.retryCounts.Keys == c.attempts.Keys
            && (forall t :: t in c.attempts && |c.attempts[t]| < TWO_32 ==> d.retryCounts[t] == |c.attempts[t]|)
            && |d.placements| == |c.placements.Keys|
            && (forall i :: 0 <= i < |d.placements| ==> d.placements[i] == c.placements[Walk(c.placements.Keys)[i]])
    ensures Persist(c, saved).disk == if saved then Persist(c, saved).durable else c.disk
    ensures Persist(c, saved) == c.(durable := Persist(c, saved).durable, disk := Persist(c, saved).disk)
  {
    KeyOrder(c.placements);
    forall t | t in c.attempts
      ensures forall x :: x in CommittedOnly(c.attempts[t]) <==> x in c.attempts[t] && x.committed
    {
      CommittedAre(c.attempts[t]);
    }
    hide InKeyOrder, CommittedOnly, Walk;
  }

  lemma {:induction false} CommittedAre(list: seq<Attempt>)
    ensures forall x :: x in CommittedOnly(list) <==> x in list && x.committed
    decreases |list|
  {
    if list != [] {
      CommittedAre(list[1..]);
      assert list == [list[0]] + list[1..];
    }
  }

  // ----- the pieces of a sweep -----

  /** `t` is ready from now on. */
  ghost predicate Readied(c: Core, c1: Core, t: Id, now: Int64, saved: bool) {
    && Moved(c.graph, c1.graph, t, READY) && c1.readyAt == c.readyAt[t := now] && c1.attempts == c.attempts
    && c1.retryReadyAt == c.retryReadyAt && c1.cancelRequested == c.cancelRequested && Rest(c, c1) && Written(c, c1, saved)
  }

  /** `t` has expired and holds nothing. */
  ghost predicate Expiry(c: Core, c1: Core, t: Id, saved: bool) {
    && Moved(c.graph, c1.graph, t, EXPIRED) && Freed(c, c1, t)
    && c1.attempts == c.attempts && SameTimes(c, c1) && Rest(c, c1) && Written(c, c1, saved)
  }

  lemma RequeueShape(c: Core, t: Id, now: Int64, saved: bool)
    requires MemoryInv(c) && DispatchTimedOut(c, t, now)
    ensures Readied(c, Requeue(c, t, now, saved), t, now, saved) && Freed(c, Requeue(c, t, now, saved), t)
  {
    assert Moved(c.graph, SetState(c.graph, t, READY), t, READY);
    hide MemoryInv, Persist, Written, ReleasedBook, SetState, Moved, Freed;
    var c0 := SetTask(ReleaseFor(c, t), t, READY);
    PersistWrites(c, c0.(readyAt := c0.readyAt[t := now]), saved);
    ReleaseFrees(c, t);
    FreedFrom(c, ReleaseFor(c, t), Requeue(c, t, now, saved), t);
  }

  /** A dispatch is given five seconds: a task that is still Dispatching after more than that is
      ready again and gives its reservation back; any other is left alone. */
  lemma RequeueIff(c: Core, e: Event)
    requires MemoryInv(c) && e.step.DoRequeue?
    ensures var t, c1 := e.step.t, Next(c, e);
            if TaskStateOf(c, t) == DISPATCHING && t in c.dispatchAt && e.now > c.dispatchAt[t] + 5000
            then Readied(c, c1, t, e.now, e.saved) && Freed(c, c1, t)
            else c1 == c
  {
    hide MemoryInv, Persist, Readied, Freed, ReleaseFor;
    if DispatchTimedOut(c, e.step.t, e.now) {
      RequeueShape(c, e.step.t, e.now, e.saved);
    }
  }

  lemma RetryShape(c: Core, t: Id, now: Int64, saved: bool)
    requires RetryDue(c, t, now)
    ensures Readied(c, Retry(c, t, now, saved), t, now, saved) && SameHoldings(c, Retry(c, t, now, saved))
  {
    assert Moved(c.graph, SetState(c.graph, t, READY), t, READY);
    hide Persist, Written, SetState, Moved;
    PersistWrites(c, SetTask(c, t, READY).(readyAt := c.readyAt[t := now]), saved);
  }

  /** A task that waits for a retry is ready once its timer has run out, and not before. */
  lemma RetryIff(c: Core, e: Event)
    requires MemoryInv(c) && e.step.DoRetry?
    ensures var t, c1 := e.step.t, Next(c, e);
            if TaskStateOf(c, t) == RETRY_PENDING && t in c.retryReadyAt && e.now >= c.retryReadyAt[t]
            then Readied(c, c1, t, e.now, e.saved) && SameHoldings(c, c1)
            else c1 == c
  {
    hide MemoryInv, Persist, Readied, SameHoldings;
    if RetryDue(c, e.step.t, e.now) {
      RetryShape(c, e.step.t, e.now, e.saved);
    }
  }

  lemma ExpireShape(c: Core, t: Id, now: Int64, saved: bool)
    requires MemoryInv(c) && DeadlinePassed(c, t, now)
    ensures Expiry(c, Expire(c, t, now, saved), t, saved)
  {
    assert Moved(c.graph, SetState(c.graph, t, EXPIRED), t, EXPIRED);
    hide MemoryInv, Persist, Written, ReleasedBook, SetState, Moved, Freed, DeadlinePassed;
    PersistWrites(c, SetTask(ReleaseFor(c, t), t, EXPIRED), saved);
    ReleaseFrees(c, t);
    FreedFrom(c, ReleaseFor(c, t), Expire(c, t, now, saved), t);
  }

  /** A task that is ready, blocked or waiting for a retry when its deadline comes has expired. */
  lemma ExpireIff(c: Core, e: Event)
    requires MemoryInv(c) && e.step.DoExpire?
    ensures var t, c1 := e.step.t, Next(c, e);
            if t in c.graph.tasks && c.graph.tasks[t].hasDeadline && e.now >= c.graph.tasks[t].deadlineMs
               && TaskStateOf(c, t) in {READY, BLOCKED, RETRY_PENDING}
            then Expiry(c, c1, t, e.saved)
            else c1 == c
  {
    hide MemoryInv, Persist, Expiry, ReleaseFor;
    if DeadlinePassed(c, e.step.t, e.now) {
      ExpireShape(c, e.step.t, e.now, e.saved);
    }
  }

  // ----- placing -----

  /** The executor a decision names, or else the one the task asks for. */
  function Executor(task: ComputeTask, d: PlacementDecision): ExecutorType {
    if d.chosenExecutor.Some? then d.chosenExecutor.value else task.requiredExecutor
  }

  /** A task takes GPU slots on a CUDA executor and CPU slots on any other. */
  function SlotsOn(task: ComputeTask, e: ExecutorType): U32 {
    if e == CUDA then task.requiredGpuSlots else task.requiredCpuSlots
  }

  /** The decision names a connected node whose reservations leave room for the task. */
  ghost predicate Sendable(c: Core, task: ComputeTask, d: PlacementDecision) {
    && d.feasible && d.chosenNode.Some? && d.chosenNode.value in c.nodes && c.nodes[d.chosenNode.value].connected
    && Refusals(c.reservations, c.nodes[d.chosenNode.value], Executor(task, d), SlotsOn(task, Executor(task, d)),
                task.scratchMemoryBytes) == None
  }

  /** A live reservation for the task on the node, of this epoch and the node's session. */
  ghost predicate Reserves(r: Reservation, id: Id, task: ComputeTask, t: Id, n: NodeRecord, e: ExecutorType, epoch: U64, now: Int64) {
    && r.id == id && r.taskId == t && r.nodeId == n.id && r.sessionId == n.session && r.sessionEpoch == n.sessionEpoch
    && r.epoch == epoch && r.executor == e && r.slots == SlotsOn(task, e) && r.scratchBytes == task.scratchMemoryBytes
    && r.createdAtMs == now && !r.released
  }

  /** A new attempt, uncommitted and on its way, numbered by those before it. */
  ghost predicate Begins(x: Attempt, ch: Choice, t: Id, n: NodeRecord, e: ExecutorType, epoch: U64, number: nat, now: Int64) {
    && x.id == ch.attempt && x.taskId == t && x.nodeId == n.id && x.nodeSession == n.session && x.epoch == epoch
    && x.reservationId == ch.reservation && x.executor == e && (number < TWO_32 ==> x.attemptNumber == number)
    && x.dispatchedAtMs == now && x.state == ATTEMPT_DISPATCHED && !x.committed && x.failureKind == NO_FAILURE
    && x.device == ch.decision.chosenDevice && x.startedAtMs == 0 && x.completedAtMs == 0 && x.failureReason == []
    && x.outputSize == 0 && x.outputIntegrity == [] && x.cpuMillis == 0 && x.bytesTransferred == 0
  }

  /** The decision is on record under the next sequence number. */
  ghost predicate Noted(c: Core, c1: Core, t: Id, d: PlacementDecision) {
    && c1.placements == c.placements[t := StoredPlacement(t, c1.placementSequence, d)]
    && (c.placementSequence < TWO_64 - 1 ==> c1.placementSequence == c.placementSequence + 1)
  }

  /** `t` is sent out as the decision says. */
  ghost predicate SentOut(c: Core, c1: Core, t: Id, ch: Choice, now: Int64)
    requires t in c.graph.tasks && ch.decision.chosenNode.Some? && ch.decision.chosenNode.value in c.nodes
  {
    var task, n, before := c.graph.tasks[t], c.nodes[ch.decision.chosenNode.value], AttemptsOf(c.attempts, t);
    var e := Executor(task, ch.decision);
    && ch.reservation in c1.reservations && c1.reservations == c.reservations[ch.reservation := c1.reservations[ch.reservation]]
    && Reserves(c1.reservations[ch.reservation], ch.reservation, task, t, n, e, Epoch(c), now)
    && t in c1.attempts && |c1.attempts[t]| == |before| + 1
    && c1.attempts == c.attempts[t := before + [c1.attempts[t][|before|]]]
    && Begins(c1.attempts[t][|before|], ch, t, n, e, Epoch(c), |before|, now)
    && c1.taskReservation == c.taskReservation[t := ch.reservation] && c1.dispatchAt == c.dispatchAt[t := now]
    && Moved(c.graph, c1.graph, t, DISPATCHING)
    && c1 == c.(graph := c1.graph, attempts := c1.attempts, reservations := c1.reservations,
                taskReservation := c1.taskReservation, dispatchAt := c1.dispatchAt, placements := c1.placements,
                placementSequence := c1.placementSequence, durable := c1.durable, disk := c1.disk)
  }

  ghost predicate Dispatched(c: Core, c1: Core, t: Id, ch: Choice, now: Int64, saved: bool)
    requires t in c.graph.tasks && ch.decision.chosenNode.Some? && ch.decision.chosenNode.value in c.nodes
  {
    SentOut(c, c1, t, ch, now) && Noted(c, c1, t, ch.decision) && Written(c, c1, saved)
  }

  lemma FreshReserves(id: Id, task: ComputeTask, t: Id, n: NodeRecord, e: ExecutorType, epoch: U64, now: Int64)
    ensures Reserves(Fresh(id, n, epoch, t, e, SlotsFor(task, e), task.scratchMemoryBytes, now), id, task, t, n, e, epoch, now)
  {
  }

  lemma NewBegins(ch: Choice, t: Id, n: NodeRecord, e: ExecutorType, epoch: U64, number: nat, now: Int64)
    ensures Begins(NewAttempt(epoch, number, t, n, e, ch, now), ch, t, n, e, epoch, number, now)
  {
  }

  lemma SentOutIs(c: Core, t: Id, ch: Choice, now: Int64, saved: bool)
    requires t in c.graph.tasks && t in c.graph.states && c.graph.states[t] == READY
    requires ch.decision.chosenNode.Some? && ch.decision.chosenNode.value in c.nodes
    ensures var n := c.nodes[ch.decision.chosenNode.value];
            var c0 := RecordPlacement(c, t, ch.decision);
            var c1 := Persist(Dispatch(c0, t, n, Executor(c.graph.tasks[t], ch.decision), ch, now), saved);
            Dispatched(c, c1, t, ch, now, saved)
  {
    var task, n := c.graph.tasks[t], c.nodes[ch.decision.chosenNode.value];
    var e := Executor(task, ch.decision);
    DispatchingReady(c.graph, t);
    hide Persist, Written, Executor, SetState, Fresh, NewAttempt, Reserves, Begins, SlotsFor;
    PersistWrites(c, Dispatch(RecordPlacement(c, t, ch.decision), t, n, e, ch, now), saved);
    FreshReserves(ch.reservation, task, t, n, e, Epoch(c), now);
    NewBegins(ch, t, n, e, Epoch(c), |AttemptsOf(c.attempts, t)|, now);
  }

  /** A ready task whose deadline has come has expired; nothing else changes. */
  ghost predicate Lapsed(c: Core, c1: Core, t: Id, saved: bool) {
    && Moved(c.graph, c1.graph, t, EXPIRED) && Written(c, c1, saved)
    && c1 == c.(graph := c1.graph, durable := c1.durable, disk := c1.disk)
  }

  lemma ExpiresReady(c: Core, t: Id, saved: bool)
    requires t in c.graph.states && c.graph.states[t] == READY
    ensures Lapsed(c, Persist(SetTask(c, t, EXPIRED), saved), t, saved)
  {
    hide Persist, Written;
    PersistWrites(c, SetTask(c, t, EXPIRED), saved);
  }

  lemma PlacingShape(c: Core, t: Id, ch: Choice, now: Int64, saved: bool)
    requires t in c.graph.tasks && TaskStateOf(c, t) == READY
    requires !(c.graph.tasks[t].hasDeadline && now >= c.graph.tasks[t].deadlineMs)
    ensures var c0, task := RecordPlacement(c, t, ch.decision), c.graph.tasks[t];
            Schedule(c, t, ch, now, saved) ==
              if Sendable(c, task, ch.decision)
              then Persist(Dispatch(c0, t, c.nodes[ch.decision.chosenNode.value], Executor(task, ch.decision), ch, now), saved)
              else c0
  {
    hide Persist, Dispatch, Refusals, SetTask, RecordPlacement;
  }

  /** The decision is on record and nothing else changes. */
  ghost predicate OnlyNoted(c: Core, c1: Core, t: Id, d: PlacementDecision) {
    Noted(c, c1, t, d) && c1 == c.(placements := c1.placements, placementSequence := c1.placementSequence)
  }

  lemma NotedIs(c: Core, t: Id, d: PlacementDecision)
    ensures OnlyNoted(c, RecordPlacement(c, t, d), t, d)
  {
  }

  predicate TimeIsUp(task: ComputeTask, now: Int64) {
    task.hasDeadline && now >= task.deadlineMs
  }

  lemma PlacingIgnores(c: Core, e: Event)
    requires e.step.DoSchedule? && (e.step.t !in c.graph.tasks || TaskStateOf(c, e.step.t) != READY)
    ensures Next(c, e) == c
  {
    hide Persist, Dispatch, Refusals, SetTask, RecordPlacement;
  }

  lemma PlacingExpires(c: Core, e: Event)
    requires e.step.DoSchedule? && e.step.t in c.graph.tasks && e.step.t in c.graph.states
    requires TaskStateOf(c, e.step.t) == READY && TimeIsUp(c.graph.tasks[e.step.t], e.now)
    ensures Lapsed(c, Next(c, e), e.step.t, e.saved)
  {
    hide Persist, Dispatch, Refusals, SetTask, RecordPlacement, Lapsed;
    ExpiresReady(c, e.step.t, e.saved);
  }

  lemma PlacingIs(c: Core, e: Event)
    requires e.step.DoSchedule? && e.step.t in c.graph.tasks && e.step.t in c.graph.states
    requires TaskStateOf(c, e.step.t) == READY && !TimeIsUp(c.graph.tasks[e.step.t], e.now)
    ensures if Sendable(c, c.graph.tasks[e.step.t], e.step.ch.decision)
            then Dispatched(c, Next(c, e), e.step.t, e.step.ch, e.now, e.saved)
            else OnlyNoted(c, Next(c, e), e.step.t, e.step.ch.decision)
  {
    var t, ch := e.step.t, e.step.ch;
    hide Persist, Dispatch, Refusals, RecordPlacement, Dispatched, OnlyNoted, Schedule;
    PlacingShape(c, t, ch, e.now, e.saved);
    NotedIs(c, t, ch.decision);
    if Sendable(c, c.graph.tasks[t], ch.decision) {
      SentOutIs(c, t, ch, e.now, e.saved);
    }
  }

  /** A placing step leaves a task that is not ready alone, expires a ready one whose deadline
      has come, and otherwise records the decision; it sends the task out exactly when the
      decision names a connected node with room for it. */
  lemma PlacingSays(c: Core, e: Event)
    requires MemoryInv(c) && e.step.DoSchedule?
    ensures var t, ch, c1 := e.step.t, e.step.ch, Next(c, e);
            if t !in c.graph.tasks || TaskStateOf(c, t) != READY then c1 == c
            else if TimeIsUp(c.graph.tasks[t], e.now) then Lapsed(c, c1, t, e.saved)
            else if Sendable(c, c.graph.tasks[t], ch.decision) then Dispatched(c, c1, t, ch, e.now, e.saved)
            else OnlyNoted(c, c1, t, ch.decision)
  {
    hide MemoryInv, Next, Dispatched, OnlyNoted, Lapsed, Refusals, TimeIsUp;
    if e.step.t !in c.graph.tasks || TaskStateOf(c, e.step.t) != READY {
      PlacingIgnores(c, e);
    } else {
      TaskHasState(c, e.step.t);
      if TimeIsUp(c.graph.tasks[e.step.t], e.now) {
        PlacingExpires(c, e);
      } else {
        PlacingIs(c, e);
      }
    }
  }

  /** The placing step sends its task out. */
  ghost predicate Sends(c: Core, e: Event) {
    && e.step.DoSchedule? && e.step.t in c.graph.tasks && TaskStateOf(c, e.step.t) == READY
    && !TimeIsUp(c.graph.tasks[e.step.t], e.now) && Sendable(c, c.graph.tasks[e.step.t], e.step.ch.decision)
  }

  /** What no placing step touches: requests, timers and the state of a task that is not ready. */
  ghost predicate Spares(c: Core, c1: Core) {
    && c1.cancelRequested == c.cancelRequested && c1.retryReadyAt == c.retryReadyAt
    && forall u :: TaskStateOf(c, u) != READY ==> TaskStateOf(c1, u) == TaskStateOf(c, u)
  }

  lemma SentSpares(c: Core, c1: Core, t: Id, ch: Choice, now: Int64)
    requires t in c.graph.tasks && ch.decision.chosenNode.Some? && ch.decision.chosenNode.value in c.nodes
    requires SentOut(c, c1, t, ch, now) && TaskStateOf(c, t) == READY
    ensures Spares(c, c1)
  {
    hide Reserves, Begins, AttemptsOf;
  }

  lemma LapsedSpares(c: Core, c1: Core, t: Id, saved: bool)
    requires Lapsed(c, c1, t, saved) && TaskStateOf(c, t) == READY
    ensures Spares(c, c1) && c1.attempts == c.attempts && SameHoldings(c, c1)
  {
    hide Written;
  }

  lemma NotedSpares(c: Core, c1: Core, t: Id, d: PlacementDecision)
    requires OnlyNoted(c, c1, t, d)
    ensures Spares(c, c1) && c1.attempts == c.attempts && SameHoldings(c, c1)
  {
  }

  /** A placing step sends a task out, or it leaves all attempts and reservations alone. */
  lemma PlacingFrame(c: Core, e: Event)
    requires MemoryInv(c) && e.step.DoSchedule?
    ensures Sends(c, e) ==> SentOut(c, Next(c, e), e.step.t, e.step.ch, e.now)
    ensures !Sends(c, e) ==> Next(c, e).attempts == c.attempts && SameHoldings(c, Next(c, e))
    ensures Spares(c, Next(c, e))
  {
    var t, ch, c1 := e.step.t, e.step.ch, Next(c, e);
    PlacingSays(c, e);
    hide MemoryInv, Next, Lapsed, OnlyNoted, SentOut, Written, Noted, Refusals, TimeIsUp, Spares;
    if t !in c.graph.tasks || TaskStateOf(c, t) != READY {
      assert Spares(c, c) by { SparesSelf(c); }
    } else if TimeIsUp(c.graph.tasks[t], e.now) {
      LapsedSpares(c, c1, t, e.saved);
    } else if Sendable(c, c.graph.tasks[t], ch.decision) {
      SentSpares(c, c1, t, ch, e.now);
    } else {
      NotedSpares(c, c1, t, ch.decision);
    }
  }

  lemma SparesSelf(c: Core)
    ensures Spares(c, c)
  {
  }

  // ----- the loss of a node -----

  /** An uncommitted attempt of `t` is under way on node `n`. */
  ghost predicate AtWork(m: map<Id, seq<Attempt>>, t: Id, n: Id) {
    t in m && WorksOn(m[t], n)
  }

  ghost predicate WorksOn(list: seq<Attempt>, n: Id) {
    exists i :: 0 <= i < |list| && list[i].nodeId == n && !list[i].committed && UnderWay(list[i].state)
  }

  lemma {:induction false} OrphansAre(list: seq<Attempt>, t: Id, n: Id)
    ensures forall u :: u in Orphans(list, t, n) <==> u == t && WorksOn(list, n)
    decreases |list|
  {
    if list != [] {
      OrphansAre(list[1..], t, n);
      assert forall i :: 0 < i < |list| ==> list[i] == list[1..][i - 1];
      assert forall i :: 0 <= i < |list[1..]| ==> list[1..][i] == list[i + 1];
      assert WorksOn(list, n) <==> WorksOn([list[0]], n) || WorksOn(list[1..], n) by {
        if WorksOn([list[0]], n) {
          assert [list[0]][0] == list[0];
        }
        if WorksOn(list[1..], n) {
          var i :| 0 <= i < |list[1..]| && list[1..][i].nodeId == n && !list[1..][i].committed && UnderWay(list[1..][i].state);
          assert list[i + 1] == list[1..][i];
        }
        if WorksOn(list, n) {
          var i :| 0 <= i < |list| && list[i].nodeId == n && !list[i].committed && UnderWay(list[i].state);
          if i == 0 {
            assert [list[0]][0].nodeId == n;
          } else {
            assert list[1..][i - 1].nodeId == n;
          }
        }
      }
    }
  }

  lemma {:induction false} AffectedAre(m: map<Id, seq<Attempt>>, n: Id)
    ensures forall t :: t in Affected(m, n) <==> AtWork(m, t, n)
    decreases m.Keys
  {
    if m != map[] {
      var k := Least(m.Keys);
      OrphansAre(m[k], k, n);
      AffectedAre(m - {k}, n);
      hide Orphans, WorksOn, Least;
      assert Affected(m, n) == Orphans(m[k], k, n) + Affected(m - {k}, n);
    }
  }

  /** What its policy has for a task whose node is lost. */
  ghost predicate Retried(policy: RetryPolicy) {
    policy.retryOnNodeLoss && policy.maxAttempts > 1
  }

  /** Where the loss of its node takes a task: whatever was active, had failed or was taken off
      waits for a retry or has failed; a task that waits or is over for good stays. */
  function LostFrom(s: TaskState, again: bool): TaskState {
    if s in {PLANNING, RESERVED, DISPATCHING, RUNNING, LOST, PREEMPTED, FAILED} then (if again then RETRY_PENDING else FAILED)
    else s
  }

  /** The tasks of `ts` lose what they hold and go where a loss takes them. */
  ghost predicate Loses(c: Core, c1: Core, ts: set<Id>, now: Int64) {
    && c1 == c.(graph := c1.graph, retryReadyAt := c1.retryReadyAt, reservations := c1.reservations,
                taskReservation := c1.taskReservation)
    && LosesStates(c.graph, c1.graph, ts)
    && LosesTimers(c.graph.tasks, c.retryReadyAt, c1.retryReadyAt, ts, now)
    && c1.taskReservation == c.taskReservation - ts
    && LosesHoldings(c.reservations, c1.reservations, ts)
  }

  ghost predicate LosesStates(g: Graph, g1: Graph, ts: set<Id>) {
    && g1 == g.(states := g1.states) && g1.states.Keys == g.states.Keys
    && forall t :: t in g.states ==>
         g1.states[t] == if t in ts && t in g.tasks then LostFrom(g.states[t], Retried(g.tasks[t].retry)) else g.states[t]
  }

  ghost predicate LosesTimers(tasks: map<Id, ComputeTask>, m: map<Id, int>, m1: map<Id, int>, ts: set<Id>, now: Int64) {
    forall t ::
      if t in ts && t in tasks && Retried(tasks[t].retry)
      then t in m1 && m1[t] == now + AsInt64(tasks[t].retry.retryBackoffMs)
      else (t in m1 <==> t in m) && (t in m ==> m1[t] == m[t])
  }

  ghost predicate LosesHoldings(m: Book, m1: Book, ts: set<Id>) {
    m1.Keys == m.Keys && forall r :: r in m ==> m1[r] == if m[r].taskId in ts then m[r].(released := true) else m[r]
  }

  lemma LosesNothing(c: Core, now: Int64)
    ensures Loses(c, c, {}, now)
  {
    assert c.taskReservation - {} == c.taskReservation;
  }

  lemma LostGraphIs(g: Graph, t: Id)
    requires t in g.tasks && t in g.states
    ensures LosesStates(g, LostGraph(g, t), {t})
  {
  }

  lemma BackoffIs(g: Graph, m: map<Id, int>, t: Id, now: Int64)
    requires t in g.tasks
    ensures LosesTimers(g.tasks, m, StartBackoff(m, g, t, RetriesAfterLoss(g.tasks[t]), now), {t}, now)
  {
  }

  lemma FreedLoses(c: Core, c1: Core, t: Id)
    requires Freed(c, c1, t)
    ensures c1.taskReservation == c.taskReservation - {t} && LosesHoldings(c.reservations, c1.reservations, {t})
  {
  }

  lemma LosesOne(c: Core, t: Id, now: Int64)
    requires MemoryInv(c) && t in c.graph.tasks
    ensures Loses(c, LoseTask(c, t, now), {t}, now)
  {
    TaskHasState(c, t);
    ReleaseFrees(c, t);
    hide MemoryInv, LostGraph, LosesStates, LosesTimers, LosesHoldings, Freed, ReleasedBook, StartBackoff;
    FreedLoses(c, ReleaseFor(c, t), t);
    LostGraphIs(c.graph, t);
    BackoffIs(c.graph, c.retryReadyAt, t, now);
  }

  lemma LosesBoth(c: Core, c1: Core, c2: Core, ss: set<Id>, ts: set<Id>, now: Int64)
    requires Loses(c, c1, ss, now) && Loses(c1, c2, ts, now)
    ensures Loses(c, c2, ss + ts, now)
  {
    StatesBoth(c.graph, c1.graph, c2.graph, ss, ts);
    TimersBoth(c.graph.tasks, c.retryReadyAt, c1.retryReadyAt, c2.retryReadyAt, ss, ts, now);
    assert c.taskReservation - ss - ts == c.taskReservation - (ss + ts);
    HoldingsBoth(c.reservations, c1.reservations, c2.reservations, ss, ts);
    assert c1.graph.tasks == c.graph.tasks;
    hide LosesStates, LosesTimers, LosesHoldings;
  }

  lemma StatesBoth(g: Graph, g1: Graph, g2: Graph, ss: set<Id>, ts: set<Id>)
    requires LosesStates(g, g1, ss) && LosesStates(g1, g2, ts)
    ensures LosesStates(g, g2, ss + ts)
  {
  }

  lemma TimersBoth(tasks: map<Id, ComputeTask>, m: map<Id, int>, m1: map<Id, int>, m2: map<Id, int>,
                   ss: set<Id>, ts: set<Id>, now: Int64)
    requires LosesTimers(tasks, m, m1, ss, now) && LosesTimers(tasks, m1, m2, ts, now)
    ensures LosesTimers(tasks, m, m2, ss + ts, now)
  {
  }

  lemma HoldingsBoth(m: Book, m1: Book, m2: Book, ss: set<Id>, ts: set<Id>)
    requires LosesHoldings(m, m1, ss) && LosesHoldings(m1, m2, ts)
    ensures LosesHoldings(m, m2, ss + ts)
  {
  }

  lemma LosesKeepsTasks(c: Core, c1: Core, ts: set<Id>, now: Int64)
    requires Loses(c, c1, ts, now)
    ensures c1.graph.tasks == c.graph.tasks
  {
    hide LosesTimers, LosesHoldings;
  }

  lemma FirstApart(ts: seq<Id>)
    requires ts != []
    ensures {ts[0]} + Elements(ts[1..]) == Elements(ts)
  {
    assert ts == [ts[0]] + ts[1..];
  }

  lemma {:induction false} LosesEach(c: Core, ts: seq<Id>, now: Int64)
    requires MemoryInv(c) && forall t :: t in ts ==> t in c.graph.tasks
    ensures Loses(c, LoseTasks(c, ts, now), Elements(ts), now)
    decreases |ts|
  {
    hide MemoryInv, Loses, LoseTask;
    if ts == [] {
      LosesNothing(c, now);
      assert Elements(ts) == {};
    } else {
      assert ts[0] in ts;
      LosesOne(c, ts[0], now);
      LoseTaskInv(c, ts[0], now);
      var c1 := LoseTask(c, ts[0], now);
      LosesKeepsTasks(c, c1, {ts[0]}, now);
      LosesEach(c1, ts[1..], now);
      LosesBoth(c, c1, LoseTasks(c1, ts[1..], now), {ts[0]}, Elements(ts[1..]), now);
      FirstApart(ts);
    }
  }

  /** The task holds nothing any more and waits for a retry or has failed, as its policy says. */
  ghost predicate LeavesNode(c: Core, c1: Core, t: Id, now: Int64)
    requires t in c.graph.tasks && t in c.graph.states && t in c1.graph.states
  {
    var policy := c.graph.tasks[t].retry;
    var again := policy.retryOnNodeLoss && policy.maxAttempts > 1;
    && c1.graph.states[t] == LostFrom(c.graph.states[t], again)
    && (if again then t in c1.retryReadyAt && c1.retryReadyAt[t] == now + AsInt64(policy.retryBackoffMs)
        else SameTimer(c, c1, t))
    && t !in c1.taskReservation
  }

  ghost predicate SameTimer(c: Core, c1: Core, t: Id) {
    (t in c1.retryReadyAt <==> t in c.retryReadyAt) && (t in c.retryReadyAt ==> c1.retryReadyAt[t] == c.retryReadyAt[t])
  }

  /** The task has nothing to do with the node: it keeps its state, its timer and its holding. */
  ghost predicate StaysPut(c: Core, c1: Core, t: Id)
    requires t in c.graph.states && t in c1.graph.states
  {
    && c1.graph.states[t] == c.graph.states[t] && SameTimer(c, c1, t)
    && (t in c1.taskReservation <==> t in c.taskReservation)
    && (t in c.taskReservation ==> c1.taskReservation[t] == c.taskReservation[t])
  }

  /** A reservation is released if it is on the node or its task leaves the node, and is as it
      was otherwise. */
  ghost predicate LossHoldings(c: Core, c1: Core, n: Id) {
    && c1.reservations.Keys == c.reservations.Keys
    && forall r :: r in c.reservations ==>
         var x := c.reservations[r];
         c1.reservations[r] == if x.nodeId == n || AtWork(c.attempts, x.taskId, n) then x.(released := true) else x
  }

  /** Node `n` is lost, and with it what was under way there. */
  ghost predicate GoesOffline(c: Core, c1: Core, n: Id, now: Int64)
    requires n in c.nodes && c.graph.states.Keys == c.graph.tasks.Keys
  {
    && c1.nodes == c.nodes[n := c.nodes[n].(health := Offline, connected := false)]
    && c1.graph == c.graph.(states := c1.graph.states) && c1.graph.states.Keys == c.graph.states.Keys
    && (forall t :: t in c.graph.tasks ==>
          if AtWork(c.attempts, t, n) then LeavesNode(c, c1, t, now) else StaysPut(c, c1, t))
    && LossHoldings(c, c1, n)
    && c1 == c.(graph := c1.graph, nodes := c1.nodes, retryReadyAt := c1.retryReadyAt, reservations := c1.reservations,
                taskReservation := c1.taskReservation, durable := c1.durable, disk := c1.disk)
  }

  lemma KnownAttempts(c: Core)
    requires MemoryInv(c)
    ensures c.graph.states.Keys == c.graph.tasks.Keys
    ensures forall t, n :: AtWork(c.attempts, t, n) ==> t in c.graph.tasks
  {
    GraphIsSound(c);
  }

  lemma LossAssembles(c: Core, n: Id, c0: Core, c1: Core, ts: set<Id>, now: Int64)
    requires n in c.nodes && c.graph.states.Keys == c.graph.tasks.Keys
    requires forall t :: t in ts <==> AtWork(c.attempts, t, n)
    requires c0 == c.(nodes := c.nodes[n := c.nodes[n].(health := Offline, connected := false)],
                      reservations := ReleaseScope(c.reservations, OfNode(n)))
    requires Loses(c0, c1, ts, now)
    ensures GoesOffline(c, c1, n, now)
  {
    hide AtWork;
    forall t | t in c.graph.tasks
      ensures if AtWork(c.attempts, t, n) then LeavesNode(c, c1, t, now) else StaysPut(c, c1, t)
    {
      LossOfOne(c, c0, c1, ts, t, now);
      assert t in ts <==> AtWork(c.attempts, t, n);
    }
    hide LeavesNode, StaysPut, LosesTimers;
  }

  lemma LossOfOne(c: Core, c0: Core, c1: Core, ts: set<Id>, t: Id, now: Int64)
    requires c0.graph == c.graph && c0.retryReadyAt == c.retryReadyAt && c0.taskReservation == c.taskReservation
    requires Loses(c0, c1, ts, now) && t in c.graph.tasks && t in c.graph.states
    ensures if t in ts then LeavesNode(c, c1, t, now) else StaysPut(c, c1, t)
  {
    hide LosesHoldings;
  }

  /** The loss of a node that is not offline yet. The node is offline and disconnected; exactly
      the tasks with an uncommitted attempt under way on it give back what they hold and go
      where their policy says, with a timer exactly if they are to be retried; every other task
      keeps its state, its timer and every reservation on another node. */
  lemma LossSays(c: Core, e: Event)
    requires MemoryInv(c) && e.step.DoLoseNode?
    ensures c.graph.states.Keys == c.graph.tasks.Keys
    ensures var n, c1 := e.step.n, Next(c, e);
            if n !in c.nodes || c.nodes[n].health == Offline then c1 == c
            else GoesOffline(c, c1, n, e.now) && Written(c, c1, e.saved)
  {
    var n := e.step.n;
    KnownAttempts(c);
    if n in c.nodes && c.nodes[n].health != Offline {
      var c0 := c.(nodes := c.nodes[n := c.nodes[n].(health := Offline, connected := false)],
                   reservations := ReleaseScope(c.reservations, OfNode(n)));
      ReleaseScopeSound(c, OfNode(n));
      AffectedAre(c.attempts, n);
      hide Sound, Affected, AtWork, LoseTasks, Written, Persist, ReleaseScope, Loses;
      var ts := Affected(c.attempts, n);
      LosesEach(c0, ts, e.now);
      var c1 := LoseTasks(c0, ts, e.now);
      LossAssembles(c, n, c0, c1, Elements(ts), e.now);
      assert c1.disk == c.disk;
      PersistWrites(c, c1, e.saved);
      SavedOffline(c, c1, Persist(c1, e.saved), n, e.now);
    }
  }

  lemma SavedOffline(c: Core, c1: Core, c2: Core, n: Id, now: Int64)
    requires n in c.nodes && c.graph.states.Keys == c.graph.tasks.Keys
    requires GoesOffline(c, c1, n, now) && c2 == c1.(durable := c2.durable, disk := c2.disk)
    ensures GoesOffline(c, c2, n, now)
  {
    hide AtWork;
  }
}
