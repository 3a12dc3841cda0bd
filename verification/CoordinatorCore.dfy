/**
 The coordinator core as a value and its handlers as functions on that value.
 One handler runs at a time, so each is one step. What comes from outside (the
 clock, fresh identifiers, the scheduler's decision, whether a save reached the
 disk) is a parameter.
 */
module CoordinatorCore {
  import opened Basics
  import opened Types
  import opened Paths
  import opened TaskGraphs
  import opened Reservations
  import Lifecycle

  datatype Core = Core(
    graph: Graph,
    attempts: map<Id, seq<Attempt>>,
    reservations: Book,
    taskReservation: map<Id, Id>,
    retryReadyAt: map<Id, int>,
    readyAt: map<Id, int>,
    dispatchAt: map<Id, int>,
    cancelRequested: set<Id>,
    nodes: map<Id, NodeRecord>,
    placements: map<Id, StoredPlacement>,
    placementSequence: U64,
    durable: DurableState,
    disk: DurableState)

  const DISPATCH_TIMEOUT_MS := 5000

  function Epoch(c: Core): U64 {
    c.durable.epoch
  }

  // ----- persistence -----

  function CommittedOnly(list: seq<Attempt>): seq<Attempt> {
    if list == [] then []
    else (if list[0].committed then [list[0]] else []) + CommittedOnly(list[1..])
  }

  function CommittedAttempts(attempts: map<Id, seq<Attempt>>): map<Id, seq<Attempt>> {
    map t | t in attempts && CommittedOnly(attempts[t]) != [] :: CommittedOnly(attempts[t])
  }

  function AttemptCounts(attempts: map<Id, seq<Attempt>>): map<Id, U32> {
    map t | t in attempts :: |attempts[t]| % TWO_32
  }

  function InKeyOrder(placements: map<Id, StoredPlacement>): seq<StoredPlacement>
    decreases placements.Keys
  {
    if placements == map[] then [] else
    var k := Least(placements.Keys);
    [placements[k]] + InKeyOrder(placements - {k})
  }

  function Snapshot(c: Core): DurableState {
    DurableState(c.durable.epoch, c.durable.workloads, c.graph.tasks, c.graph.states,
                 CommittedAttempts(c.attempts), AttemptCounts(c.attempts), InKeyOrder(c.placements))
  }

  /** Rebuild the durable record and try to write it. */
  function Persist(c: Core, saved: bool): Core {
    var d := Snapshot(c);
    c.(durable := d, disk := if saved then d else c.disk)
  }

  // ----- helpers -----

  /** The book once the reservation recorded for `t`, if any, is released. */
  function ReleasedBook(m: Book, owner: map<Id, Id>, t: Id): Book {
    if t in owner then Release(m, owner[t]) else m
  }

  function ReleaseFor(c: Core, t: Id): Core {
    c.(reservations := ReleasedBook(c.reservations, c.taskReservation, t),
       taskReservation := c.taskReservation - {t})
  }

  function SetTask(c: Core, t: Id, s: TaskState): Core {
    c.(graph := SetState(c.graph, t, s))
  }

  function TaskStateOf(c: Core, t: Id): TaskState {
    StateOf(c.graph, t)
  }

  /** Where an attempt is kept. */
  datatype Spot = Spot(task: Id, index: nat)

  ghost predicate IsSpot(attempts: map<Id, seq<Attempt>>, p: Spot) {
    p.task in attempts && p.index < |attempts[p.task]|
  }

  ghost predicate Holds(attempts: map<Id, seq<Attempt>>, p: Spot, a: Id) {
    IsSpot(attempts, p) && attempts[p.task][p.index].id == a
  }

  ghost predicate Known(attempts: map<Id, seq<Attempt>>, a: Id) {
    exists p :: Holds(attempts, p, a)
  }

  ghost function Find(attempts: map<Id, seq<Attempt>>, a: Id): (p: Spot)
    requires Known(attempts, a)
    ensures Holds(attempts, p, a)
  {
    var p :| Holds(attempts, p, a); p
  }

  function Put(attempts: map<Id, seq<Attempt>>, p: Spot, a: Attempt): map<Id, seq<Attempt>>
    requires p.task in attempts && p.index < |attempts[p.task]|
  {
    attempts[p.task := attempts[p.task][p.index := a]]
  }

  // ----- client handlers -----

  ghost function Submit(c: Core, task: ComputeTask, workloadId: Id, workloadName: Bytes, stopping: bool,
                        now: Int64, saved: bool): Core
  {
    if task.id in c.graph.tasks || stopping || task.id == ZERO_ID then c
    else if exists d :: d in task.dependencies && d !in c.graph.tasks then c
    else
      var (g, r) := Added(c.graph, task);
      if r != Done then c.(graph := g)
      else
        var c1 := c.(graph := SetState(g, task.id, InitialState(task)),
                     durable := WithWorkload(c.durable, workloadId, workloadName),
                     readyAt := c.readyAt[task.id := now]);
        Persist(c1, saved)
  }

  function InitialState(task: ComputeTask): TaskState {
    if task.dependencies == [] then READY else BLOCKED
  }

  function WithWorkload(d: DurableState, id: Id, name: Bytes): DurableState {
    if id in d.workloads then d else d.(workloads := d.workloads[id := Workload(id, name, map[])])
  }

  /** `operator[]` on the attempts map: an absent task gets an empty list. */
  function WithEntry(attempts: map<Id, seq<Attempt>>, t: Id): map<Id, seq<Attempt>> {
    if t in attempts then attempts else attempts[t := []]
  }

  function Cancel(c: Core, t: Id, saved: bool): Core {
    if t !in c.graph.tasks || Lifecycle.IsTerminal(TaskStateOf(c, t)) then c
    else if TaskStateOf(c, t) == RUNNING then
      c.(cancelRequested := c.cancelRequested + {t},
         attempts := WithEntry(c.attempts, t))
    else if !Lifecycle.IsLegal(TaskStateOf(c, t), CANCELLED) then c
    else
      var c1 := ReleaseFor(SetTask(c, t, CANCELLED), t);
      Persist(c1.(cancelRequested := c1.cancelRequested - {t}), saved)
  }

  // ----- attempt messages -----

  ghost function StartAttempt(c: Core, a: Id, startedAt: Int64, device: Bytes, saved: bool): Core {
    if !Known(c.attempts, a) then c else
    var p := Find(c.attempts, a);
    var at := c.attempts[p.task][p.index];
    if at.epoch != Epoch(c) then c else
    var c1 := c.(attempts := Put(c.attempts, p,
                   at.(state := ATTEMPT_STARTED, startedAtMs := startedAt, device := device)));
    Persist(SetTask(c1, at.taskId, RUNNING), saved)
  }

  /** What a completion message reports besides the two identifiers. */
  datatype Output = Output(size: U64, integrity: Bytes, millis: Float64, transferred: U64, device: Bytes)

  /** The four checks on a completion, before cancellation is considered. */
  predicate CompletionValid(c: Core, at: Attempt, reservation: Id) {
    && at.epoch == Epoch(c)
    && (at.state == ATTEMPT_STARTED || at.state == ATTEMPT_DISPATCHED)
    && at.reservationId == reservation
    && (TaskStateOf(c, at.taskId) == RUNNING || TaskStateOf(c, at.taskId) == DISPATCHING)
  }

  function CommittedAttempt(at: Attempt, out: Output, now: Int64): Attempt {
    at.(state := ATTEMPT_SUCCEEDED, committed := true, completedAtMs := now, outputSize := out.size,
        outputIntegrity := out.integrity, cpuMillis := out.millis, bytesTransferred := out.transferred,
        device := out.device)
  }

  /** Whether a completion message commits its attempt. */
  ghost predicate Commits(c: Core, a: Id, reservation: Id) {
    && Known(c.attempts, a)
    && var at := c.attempts[Find(c.attempts, a).task][Find(c.attempts, a).index];
       !at.committed && CompletionValid(c, at, reservation) && at.taskId !in c.cancelRequested
  }

  ghost function CompleteAttempt(c: Core, a: Id, reservation: Id, out: Output, now: Int64, saved: bool): Core {
    if !Known(c.attempts, a) then c else CompleteAt(c, Find(c.attempts, a), reservation, out, now, saved)
  }

  ghost function CompleteAt(c: Core, p: Spot, reservation: Id, out: Output, now: Int64, saved: bool): Core
    requires IsSpot(c.attempts, p)
  {
    var at := c.attempts[p.task][p.index];
    if at.committed then c
    else if at.taskId in c.cancelRequested then
      var c1 := c.(attempts := Put(c.attempts, p,
                     at.(state := ATTEMPT_CANCELLED, failureKind := FAILURE_CANCELLED,
                         failureReason := CANCELLED_TEXT, completedAtMs := now)));
      Persist(ReleaseFor(SetTask(c1, at.taskId, PREEMPTED), at.taskId), saved)
    else if !CompletionValid(c, at, reservation) then c
    else
      var c1 := c.(attempts := Put(c.attempts, p, CommittedAttempt(at, out, now)));
      var c2 := ReleaseFor(SetTask(c1, at.taskId, SUCCEEDED), at.taskId);
      Persist(Unblock(c2.(cancelRequested := c2.cancelRequested - {at.taskId}), at.taskId, now), saved)
  }

  const CANCELLED_TEXT: Bytes := [0x63, 0x61, 0x6E, 0x63, 0x65, 0x6C, 0x6C, 0x65, 0x64]

  /** The retry timers once `t` has been put on its back-off, if it is to be retried. */
  function StartBackoff(timers: map<Id, int>, g: Graph, t: Id, retries: bool, now: Int64): map<Id, int> {
    if retries && t in g.tasks then timers[t := now + AsInt64(g.tasks[t].retry.retryBackoffMs)] else timers
  }

  function MayRetry(task: ComputeTask, attemptNumber: U32, kind: FailureKind): bool {
    && task.retry.maxAttempts > 1
    && (attemptNumber + 1) % TWO_32 < task.retry.maxAttempts
    && (kind != NODE_LOST || task.retry.retryOnNodeLoss)
    && (kind != EXECUTOR_FAILED || task.retry.retryOnExecutorFailure)
  }

  ghost function FailAttempt(c: Core, a: Id, kind: FailureKind, reason: Bytes, now: Int64, saved: bool): Core {
    if !Known(c.attempts, a) then c else FailAt(c, Find(c.attempts, a), kind, reason, now, saved)
  }

  ghost function FailAt(c: Core, p: Spot, kind: FailureKind, reason: Bytes, now: Int64, saved: bool): Core
    requires IsSpot(c.attempts, p)
  {
    var at := c.attempts[p.task][p.index];
    if at.epoch != Epoch(c) || at.state == ATTEMPT_SUCCEEDED || at.committed then c else
    var retries := at.taskId in c.graph.tasks && MayRetry(c.graph.tasks[at.taskId], at.attemptNumber, kind)
                   && TaskStateOf(c, at.taskId) != SUCCEEDED;
    var c1 := ReleaseFor(c.(attempts := Put(c.attempts, p,
                   at.(state := ATTEMPT_FAILED, failureKind := kind, failureReason := reason,
                       completedAtMs := now))), at.taskId);
    Persist(c1.(graph := SetState(c.graph, at.taskId, if retries then RETRY_PENDING else FAILED),
                retryReadyAt := StartBackoff(c.retryReadyAt, c.graph, at.taskId, retries, now)), saved)
  }

  ghost function CancelledByNode(c: Core, a: Id, reason: Bytes, now: Int64, saved: bool): Core {
    if !Known(c.attempts, a) then c else
    var p := Find(c.attempts, a);
    var at := c.attempts[p.task][p.index];
    if at.epoch != Epoch(c) then c else
    var c1 := c.(attempts := Put(c.attempts, p,
                   at.(state := ATTEMPT_CANCELLED, failureKind := FAILURE_CANCELLED, failureReason := reason,
                       completedAtMs := now)));
    Persist(SetTask(ReleaseFor(c1, at.taskId), at.taskId, PREEMPTED), saved)
  }

  function ReleaseByNode(c: Core, r: Id): Core {
    if r in c.reservations && c.reservations[r].epoch == Epoch(c)
    then c.(reservations := Release(c.reservations, r)) else c
  }

  /** The tasks a success makes ready: blocked direct dependents that wait for nothing else. */
  ghost function Unblocked(g: Graph, t: Id): set<Id> {
    set d | d in Succ(g.dependents, t) && StateOf(g, d) == BLOCKED && Satisfied(g, d)
  }

  ghost function MakeReady(g: Graph, ds: set<Id>): Graph {
    g.(states := map d | d in g.states :: if d in ds then READY else g.states[d])
  }

  /** The effect of the recursive propagation after a success. */
  ghost function Unblock(c: Core, t: Id, now: Int64): Core {
    var ds := Unblocked(c.graph, t);
    c.(graph := MakeReady(c.graph, ds), readyAt := Stamp(c.readyAt, ds, now))
  }

  /** The times with those of `ds` set to `now`. */
  function Stamp(times: map<Id, int>, ds: set<Id>, now: Int64): map<Id, int> {
    map d | d in times.Keys + ds :: if d in ds then now else times[d]
  }

  // ----- nodes -----

  /** What a node, a client or a connection says about a node. */
  datatype NodeNews =
    | Registers(capacity: NodeCapacity, session: Id, sameConnection: bool)
    | Heartbeats(session: Id, sessionEpoch: U64, epoch: U64)
    | Drains(drain: bool)
    | Disconnects(currentConnection: bool, timeoutMs: int)

  function NodeUpdate(c: Core, n: Id, news: NodeNews, now: Int64): Core {
    c.(nodes := NodesAfter(c.nodes, Epoch(c), n, news, now))
  }

  function NodesAfter(nodes: map<Id, NodeRecord>, current: U64, n: Id, news: NodeNews, now: Int64)
    : map<Id, NodeRecord>
  {
    match news
    case Registers(capacity, session, same) => Registered(nodes, current, n, capacity, session, same, now)
    case Heartbeats(session, sessionEpoch, epoch) => HeartbeatSeen(nodes, current, n, session, sessionEpoch, epoch, now)
    case Drains(drain) => Drained(nodes, n, drain)
    case Disconnects(connection, timeoutMs) => Disconnected(nodes, n, connection, timeoutMs, now)
  }

  function Registered(nodes: map<Id, NodeRecord>, epoch: U64, n: Id, capacity: NodeCapacity, session: Id,
                      sameConnection: bool, now: Int64): map<Id, NodeRecord>
  {
    if n in nodes && nodes[n].connected && sameConnection then nodes
    else
      var sessionEpoch: U64 := if n in nodes then (nodes[n].sessionEpoch + 1) % TWO_64 else 1;
      nodes[n := NodeRecord(n, session, epoch, sessionEpoch, Online, capacity, now, true)]
  }

  function HeartbeatSeen(nodes: map<Id, NodeRecord>, current: U64, n: Id, session: Id, sessionEpoch: U64, epoch: U64,
                         now: Int64): map<Id, NodeRecord>
  {
    if n !in nodes || nodes[n].session != session || nodes[n].sessionEpoch != sessionEpoch || epoch != current
    then nodes
    else nodes[n := nodes[n].(lastHeartbeatMs := now, health := Online)]
  }

  function Drained(nodes: map<Id, NodeRecord>, n: Id, drain: bool): map<Id, NodeRecord> {
    if n !in nodes || nodes[n].health == Offline then nodes
    else nodes[n := nodes[n].(health := if drain then Draining else Online)]
  }

  function Disconnected(nodes: map<Id, NodeRecord>, n: Id, currentConnection: bool, timeoutMs: int, now: Int64)
    : map<Id, NodeRecord>
  {
    if !currentConnection || n !in nodes || nodes[n].health == Offline then nodes
    else nodes[n := nodes[n].(connected := false, lastHeartbeatMs := now - timeoutMs + 100)]
  }

  /** The attempt was running on `n`. */
  predicate Orphaned(a: Attempt, n: Id) {
    a.nodeId == n && !a.committed && (a.state == ATTEMPT_STARTED || a.state == ATTEMPT_DISPATCHED)
  }

  /** One entry per attempt of `list` that was running on `n`. */
  function Orphans(list: seq<Attempt>, t: Id, n: Id): seq<Id> {
    if list == [] then [] else (if Orphaned(list[0], n) then [t] else []) + Orphans(list[1..], t, n)
  }

  /** The tasks to requeue when `n` is lost, in key order, once per orphaned attempt. */
  function Affected(attempts: map<Id, seq<Attempt>>, n: Id): seq<Id>
    decreases attempts.Keys
  {
    if attempts == map[] then [] else
    var t := Least(attempts.Keys);
    Orphans(attempts[t], t, n) + Affected(attempts - {t}, n)
  }

  /** Lost, and from there to a retry or to failure; each transition only if legal. */
  function LostGraph(g: Graph, t: Id): Graph
    requires t in g.tasks
  {
    SetState(SetState(g, t, LOST), t, if RetriesAfterLoss(g.tasks[t]) then RETRY_PENDING else FAILED)
  }

  function LoseTask(c: Core, t: Id, now: Int64): Core {
    if t !in c.graph.tasks then c else
    ReleaseFor(c, t).(graph := LostGraph(c.graph, t),
                      retryReadyAt := StartBackoff(c.retryReadyAt, c.graph, t, RetriesAfterLoss(c.graph.tasks[t]), now))
  }

  function LoseTasks(c: Core, ts: seq<Id>, now: Int64): Core
    decreases |ts|
  {
    if ts == [] then c else LoseTasks(LoseTask(c, ts[0], now), ts[1..], now)
  }

  function LoseNode(c: Core, n: Id, now: Int64, saved: bool): Core {
    if n !in c.nodes || c.nodes[n].health == Offline then c
    else
      var c1 := c.(nodes := c.nodes[n := c.nodes[n].(health := Offline, connected := false)],
                   reservations := ReleaseScope(c.reservations, OfNode(n)));
      Persist(LoseTasks(c1, Affected(c1.attempts, n), now), saved)
  }

  // ----- the pieces of a sweep -----

  predicate DispatchTimedOut(c: Core, t: Id, now: Int64) {
    t in c.dispatchAt && TaskStateOf(c, t) == DISPATCHING && now - c.dispatchAt[t] > DISPATCH_TIMEOUT_MS
  }

  function Requeue(c: Core, t: Id, now: Int64, saved: bool): Core {
    if !DispatchTimedOut(c, t, now) then c
    else
      var c1 := SetTask(ReleaseFor(c, t), t, READY);
      Persist(c1.(readyAt := c1.readyAt[t := now]), saved)
  }

  predicate RetryDue(c: Core, t: Id, now: Int64) {
    t in c.retryReadyAt && TaskStateOf(c, t) == RETRY_PENDING && c.retryReadyAt[t] <= now
  }

  function Retry(c: Core, t: Id, now: Int64, saved: bool): Core {
    if !RetryDue(c, t, now) then c
    else Persist(SetTask(c, t, READY).(readyAt := c.readyAt[t := now]), saved)
  }

  predicate DeadlinePassed(c: Core, t: Id, now: Int64) {
    && t in c.graph.tasks && c.graph.tasks[t].hasDeadline && now >= c.graph.tasks[t].deadlineMs
    && (TaskStateOf(c, t) == READY || TaskStateOf(c, t) == BLOCKED || TaskStateOf(c, t) == RETRY_PENDING)
  }

  function Expire(c: Core, t: Id, now: Int64, saved: bool): Core {
    if !DeadlinePassed(c, t, now) then c
    else Persist(SetTask(ReleaseFor(c, t), t, EXPIRED), saved)
  }

  /** What the outside contributes to one scheduling decision. */
  datatype Choice = Choice(decision: PlacementDecision, reservation: Id, attempt: Id)

  function RecordPlacement(c: Core, t: Id, d: PlacementDecision): Core {
    var next: U64 := (c.placementSequence + 1) % TWO_64;
    c.(placements := c.placements[t := StoredPlacement(t, next, d)], placementSequence := next)
  }

  function ChosenExecutor(task: ComputeTask, d: PlacementDecision): ExecutorType {
    if d.chosenExecutor.Some? then d.chosenExecutor.value else task.requiredExecutor
  }

  function SlotsFor(task: ComputeTask, e: ExecutorType): U32 {
    if e == CUDA then task.requiredGpuSlots else task.requiredCpuSlots
  }

  function NewAttempt(epoch: U64, previous: nat, t: Id, n: NodeRecord, e: ExecutorType, ch: Choice, now: Int64)
    : Attempt
  {
    Attempt(ch.attempt, t, n.id, n.session, epoch, ch.reservation, e, previous % TWO_32, now, 0, 0, ATTEMPT_DISPATCHED,
            NO_FAILURE, [], 0, [], 0, 0, ch.decision.chosenDevice, false)
  }

  function AttemptsOf(attempts: map<Id, seq<Attempt>>, t: Id): seq<Attempt> {
    if t in attempts then attempts[t] else []
  }

  /** Hand a ready task the reservation it was granted and send it out. */
  function Dispatch(c: Core, t: Id, n: NodeRecord, e: ExecutorType, ch: Choice, now: Int64): Core
    requires t in c.graph.tasks
  {
    var task := c.graph.tasks[t];
    var r := Fresh(ch.reservation, n, Epoch(c), t, e, SlotsFor(task, e), task.scratchMemoryBytes, now);
    var list := AttemptsOf(c.attempts, t);
    var at := NewAttempt(Epoch(c), |list|, t, n, e, ch, now);
    c.(reservations := c.reservations[ch.reservation := r],
       graph := SetState(SetState(SetState(c.graph, t, PLANNING), t, RESERVED), t, DISPATCHING),
       taskReservation := c.taskReservation[t := ch.reservation],
       attempts := c.attempts[t := list + [at]],
       dispatchAt := c.dispatchAt[t := now])
  }

  ghost function Schedule(c: Core, t: Id, ch: Choice, now: Int64, saved: bool): Core {
    if t !in c.graph.tasks || TaskStateOf(c, t) != READY then c else
    var task := c.graph.tasks[t];
    if task.hasDeadline && now >= task.deadlineMs then Persist(SetTask(c, t, EXPIRED), saved) else
    var c1 := RecordPlacement(c, t, ch.decision);
    if !ch.decision.feasible || ch.decision.chosenNode == None then c1
    else if ch.decision.chosenNode.value !in c.nodes || !c.nodes[ch.decision.chosenNode.value].connected then c1
    else
      var n := c.nodes[ch.decision.chosenNode.value];
      var e := ChosenExecutor(task, ch.decision);
      if Refusals(c.reservations, n, e, SlotsFor(task, e), task.scratchMemoryBytes) != None then c1
      else Persist(Dispatch(c1, t, n, e, ch, now), saved)
  }

  // ----- recovery -----

  /** Insert the tasks with the given ids one by one. */
  ghost function Rebuild(g: Graph, tasks: map<Id, ComputeTask>, ids: seq<Id>): Result<Graph>
    requires forall t :: t in ids ==> t in tasks
    decreases |ids|
  {
    if ids == [] then Ok(g) else
    assert ids[0] in ids;
    var (g1, r) := Added(g, tasks[ids[0]]);
    if r != Done then Err(CorruptionDetected) else Rebuild(g1, tasks, ids[1..])
  }

  predicate RetriesAfterLoss(task: ComputeTask) {
    task.retry.retryOnNodeLoss && task.retry.maxAttempts > 1
  }

  /** What recovery makes of a task found in state `s`. */
  function RecoveredState(task: ComputeTask, s: TaskState): TaskState {
    if !Lifecycle.IsActive(s) then s else if RetriesAfterLoss(task) then RETRY_PENDING else FAILED
  }

  function Restored(g: Graph, d: DurableState): Graph {
    g.(states := map t | t in g.states :: if t in d.taskStates then d.taskStates[t] else g.states[t])
  }

  function Recovered(g: Graph): Graph {
    g.(states := map t | t in g.states ::
         if t in g.tasks then RecoveredState(g.tasks[t], g.states[t]) else g.states[t])
  }

  function RecoveryTimers(g: Graph, now: Int64): map<Id, int> {
    map t | t in g.tasks && Lifecycle.IsActive(StateOf(g, t)) && RetriesAfterLoss(g.tasks[t]) ::
      now + AsInt64(g.tasks[t].retry.retryBackoffMs)
  }

  /** A coordinator started on what is on disk; fails if the graph cannot be rebuilt. */
  ghost function Start(disk: DurableState, now: Int64, saved: bool): Result<Core> {
    var d := disk.(epoch := (disk.epoch + 1) % TWO_64);
    match Rebuild(EMPTY_GRAPH, d.tasks, Walk(d.tasks.Keys))
    case Err(e) => Err(e)
    case Ok(g0) =>
      var g := Restored(g0, d);
      var c := Core(Recovered(g), d.attempts, map[], map[], RecoveryTimers(g, now), map[], map[], {}, map[],
                    map[], 0, d, disk);
      Ok(Persist(c, saved))
  }
}
