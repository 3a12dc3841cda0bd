/**
 Runs from an empty store that reach the states the theorems warn of: a task that commits
 twice, a task submitted too late, a final state lost with its save, a task left running on
 a lost node, a failed task that is retried after all.
 */
module CoordinatorWitnesses {
  import opened Basics
  import opened Types
  import opened Paths
  import opened TaskGraphs
  import opened Reservations
  import opened NoOvercommit
  import opened CoordinatorCore
  import opened CoordinatorInvariants
  import opened CoordinatorSteps
  import opened CoordinatorRecovery
  import opened CoordinatorHistory
  import opened CoordinatorRuns
  import opened CoordinatorTheorems
  import opened CoordinatorRelease
  import opened CoordinatorEffects
  import opened CoordinatorUpkeep
  import opened CoordinatorOutcomes
  import opened CoordinatorNodes

  // ----- the setting: one node with one slot, tasks that ask for nothing special -----

  const NODE: Id := 1
  const CAPACITY: NodeCapacity := NodeCapacity(1, 0, [ExecutorCapability(CPU, [], 1, 0, 0, true)], map[])

  /** The scheduler picks the node; `k` is drawn for the reservation and the attempt. */
  function Sending(k: Id): Choice {
    Choice(PlacementDecision(true, Some(NODE), Some(CPU), [], [], [], 0, 0, 0, 0, 0, 0, 0, 0, 0, 0, []), k, k)
  }

  const OUTPUT: Output := Output(0, [], 0, 0, [])

  const TWICE: RetryPolicy := RetryPolicy(2, true, true, true, 0)

  function Submitting(id: Id, dependencies: seq<Id>): Event {
    Event(DoSubmit(Plain(id, dependencies, 1).(retry := TWICE), 0, [], false), 0, true)
  }

  ghost predicate Modest(task: ComputeTask) {
    && !task.hasDeadline && task.requiredExecutor == CPU && task.requiredCpuSlots == 1 && task.scratchMemoryBytes == 0
    && task.retry == TWICE
  }

  ghost predicate Available(n: NodeRecord) {
    n.id == NODE && n.connected && n.health == Online && n.capacity == CAPACITY
  }

  /** The tasks ask for little, the node is there and nothing is being cancelled. */
  ghost predicate Equipped(c: Core) {
    && (forall t :: t in c.graph.tasks ==> Modest(c.graph.tasks[t]))
    && NODE in c.nodes && Available(c.nodes[NODE]) && c.cancelRequested == {}
  }

  ghost predicate UsedOnly(c: Core, used: set<Id>) {
    c.reservations.Keys <= used && forall a :: Known(c.attempts, a) ==> a in used
  }

  /** The tasks are in the given states and identifiers in use are among `used`. */
  ghost predicate Stage(c: Core, states: map<Id, TaskState>, used: set<Id>) {
    Inv(c) && c.graph.states == states && Equipped(c) && UsedOnly(c, used)
  }

  lemma StillEquipped(c: Core, c1: Core)
    requires Equipped(c) && c1.graph.tasks == c.graph.tasks && c1.nodes == c.nodes && c1.cancelRequested == {}
    ensures Equipped(c1)
  {
  }

  lemma Begin() returns (c: Core)
    ensures Initial(c) && Inv(c) && Synced(c)
    ensures c.graph.tasks == map[] && c.graph.states == map[] && c.attempts == map[] && c.reservations == map[]
    ensures c.cancelRequested == {} && c.nodes == map[] && Epoch(c) == 2
  {
    EmptyDiskInv();
    StartRecovers(EMPTY_DISK, 0, true);
    DurableIsGood(EMPTY_DISK);
    var g := RebuildFromDisk(EMPTY_DISK);
    StartShape(g, EMPTY_DISK, 0, true);
    c := Start(EMPTY_DISK, 0, true).value;
    assert Initial(c);
    InitialInv(c);
    GraphIsSound(c);
    hide Start, DurableInv, Sound, Partial, Recovered, Restored, RecoveryTimers, Inverse, Complete, Acyclic, AttemptsInv,
      GoodTasks, Resumes;
    PersistFrame(Awakened(g, EMPTY_DISK, 0), true);
  }

  function Joining(): Event {
    Event(DoNodeNews(NODE, Registers(CAPACITY, 0, false)), 0, true)
  }

  lemma Joined(c: Core)
    requires Inv(c) && c.graph.tasks == map[] && c.graph.states == map[] && c.attempts == map[]
    requires c.reservations == map[] && c.cancelRequested == {} && c.nodes == map[]
    ensures Stage(Next(c, Joining()), map[], {}) && Next(c, Joining()).attempts == map[]
  {
    hide Inv;
    NextInv(c, Joining());
  }

  lemma SaveFrame(c: Core, saved: bool)
    ensures var c1 := Persist(c, saved);
            && c1.graph == c.graph && c1.attempts == c.attempts && c1.reservations == c.reservations
            && c1.nodes == c.nodes && c1.cancelRequested == c.cancelRequested && c1.dispatchAt == c.dispatchAt
            && Epoch(c1) == Epoch(c)
  {
    hide Snapshot;
    PersistFrame(c, saved);
  }

  lemma EntryFrame(c: Core, e: Event)
    requires MemoryInv(c) && Admits(c, e)
    ensures var c1 := Next(c, e);
            && c1.attempts == c.attempts && c1.reservations == c.reservations && c1.nodes == c.nodes
            && c1.cancelRequested == c.cancelRequested
  {
    GraphIsSound(c);
    var task := e.step.task;
    hide MemoryInv, AttemptsInv, Persist, Added, Extended, SetState, InitialState, WithWorkload;
    SubmissionAccepted(c.graph, task);
    SaveFrame(c.(graph := SetState(Extended(c.graph, task), task.id, InitialState(task)),
                 durable := WithWorkload(c.durable, e.step.workloadId, e.step.workloadName),
                 readyAt := c.readyAt[task.id := e.now]), e.saved);
  }

  lemma KnownTasks(c: Core)
    requires Inv(c)
    ensures WellFormed(c.graph)
  {
    GraphIsSound(c);
  }

  lemma Entered(c: Core, states: map<Id, TaskState>, used: set<Id>, id: Id, dependencies: seq<Id>)
    requires Stage(c, states, used) && id !in states && id != ZERO_ID
    requires forall d :: d in dependencies ==> d in states
    ensures var e := Submitting(id, dependencies);
            && Admits(c, e) && Next(c, e).attempts == c.attempts
            && Stage(Next(c, e), states[id := if dependencies == [] then READY else BLOCKED], used)
  {
    var e := Submitting(id, dependencies);
    KnownTasks(c);
    assert Admits(c, e);
    NextInv(c, e);
    SubmissionGraph(c, e);
    EntryFrame(c, e);
    EntryEquipped(c, e);
    hide Inv, Next, UsedOnly, Equipped, Admits, Known;
    EntryStates(c.graph, e.step.task);
    hide Extended, SetState;
    SameUsed(c, Next(c, e), used);
  }

  lemma EntryEquipped(c: Core, e: Event)
    requires MemoryInv(c) && Equipped(c) && Admits(c, e) && Modest(e.step.task)
    ensures Equipped(Next(c, e))
  {
    hide MemoryInv, Next, Extended, SetState;
    SubmissionGraph(c, e);
    EntryFrame(c, e);
    EntryStates(c.graph, e.step.task);
  }

  lemma SameUsed(c: Core, c1: Core, used: set<Id>)
    requires UsedOnly(c, used) && c1.reservations.Keys <= used && c1.attempts == c.attempts
    ensures UsedOnly(c1, used)
  {
  }

  // ----- sending a ready task out -----

  /** With nothing running, nothing is held. */
  lemma AllFree(c: Core, r: Id)
    requires MemoryInv(c) && r in c.reservations
    requires forall t :: t in c.graph.states ==> !Executing(c.graph.states[t])
    ensures c.reservations[r].released
  {
  }

  lemma Granted(m: Book, n: NodeRecord)
    requires Available(n) && forall r :: r in m ==> m[r].released
    ensures Refusals(m, n, CPU, 1, 0) == None
  {
    AllReleased(m, ExecutorSlots(n.id, CPU));
    AllReleased(m, NodeSlots(n.id));
    AllReleased(m, Scratch(n.id));
  }

  function SendingEvent(t: Id, k: Id, now: Int64): Event {
    Event(DoSchedule(t, Sending(k)), now, true)
  }

  lemma DispatchedStates(g: Graph, t: Id)
    requires t in g.states && g.states[t] == READY
    ensures SetState(SetState(SetState(g, t, PLANNING), t, RESERVED), t, DISPATCHING)
            == g.(states := g.states[t := DISPATCHING])
  {
  }

  /** What sending a task out changes. */
  lemma SentFrame(c: Core, t: Id, k: Id, now: Int64)
    requires t in c.graph.tasks && Modest(c.graph.tasks[t]) && t in c.graph.states && c.graph.states[t] == READY
    requires NODE in c.nodes && Available(c.nodes[NODE])
    requires Refusals(c.reservations, c.nodes[NODE], CPU, 1, 0) == None
    ensures var c1, at := Next(c, SendingEvent(t, k, now)),
              NewAttempt(Epoch(c), |AttemptsOf(c.attempts, t)|, t, c.nodes[NODE], CPU, Sending(k), now);
            && c1.graph == c.graph.(states := c.graph.states[t := DISPATCHING])
            && c1.attempts == c.attempts[t := AttemptsOf(c.attempts, t) + [at]]
            && c1.reservations.Keys == c.reservations.Keys + {k}
            && c1.nodes == c.nodes && c1.cancelRequested == c.cancelRequested
            && c1.dispatchAt == c.dispatchAt[t := now] && Epoch(c1) == Epoch(c)
  {
    DispatchedStates(c.graph, t);
    hide Persist, Refusals, NewAttempt, SetState;
    var c1 := RecordPlacement(c, t, Sending(k).decision);
    SaveFrame(Dispatch(c1, t, c.nodes[NODE], CPU, Sending(k), now), true);
  }

  /** The last attempt of `t` has id and reservation `k` and is under way. */
  ghost predicate Outstanding(c: Core, t: Id, k: Id) {
    t in c.attempts && c.attempts[t] != [] && Underway(c.attempts[t][|c.attempts[t]| - 1], t, k, Epoch(c))
  }

  lemma AppendedKnown(m: map<Id, seq<Attempt>>, t: Id, at: Attempt, a: Id)
    ensures Known(m[t := AttemptsOf(m, t) + [at]], a) ==> a == at.id || Known(m, a)
  {
    var m1 := m[t := AttemptsOf(m, t) + [at]];
    if Known(m1, a) {
      var p := Find(m1, a);
      if p.task != t || p.index < |AttemptsOf(m, t)| {
        assert Holds(m, p, a);
      }
    }
  }

  lemma SentUsed(c: Core, used: set<Id>, t: Id, at: Attempt, c1: Core)
    requires UsedOnly(c, used) && c1.reservations.Keys == c.reservations.Keys + {at.id}
    requires c1.attempts == c.attempts[t := AttemptsOf(c.attempts, t) + [at]]
    ensures UsedOnly(c1, used + {at.id})
  {
    hide Known;
    forall a | Known(c1.attempts, a) ensures a in used + {at.id} { AppendedKnown(c.attempts, t, at, a); }
  }

  lemma SentGranted(c: Core, t: Id)
    requires Inv(c) && Equipped(c) && t in c.graph.states
    requires forall u :: u in c.graph.states ==> !Executing(c.graph.states[u])
    ensures t in c.graph.tasks && Modest(c.graph.tasks[t])
    ensures Refusals(c.reservations, c.nodes[NODE], CPU, 1, 0) == None
  {
    KnownTasks(c);
    forall r | r in c.reservations ensures c.reservations[r].released { AllFree(c, r); }
    hide Inv;
    Granted(c.reservations, c.nodes[NODE]);
  }

  /** An attempt just sent out, with id and reservation `k`. */
  ghost predicate Underway(at: Attempt, t: Id, k: Id, epoch: U64) {
    && at.id == k && at.reservationId == k && at.taskId == t && at.epoch == epoch && !at.committed
    && (at.state == ATTEMPT_DISPATCHED || at.state == ATTEMPT_STARTED)
  }

  lemma AppendedOutstanding(m: map<Id, seq<Attempt>>, t: Id, k: Id, at: Attempt, c1: Core)
    requires c1.attempts == m[t := AttemptsOf(m, t) + [at]] && Underway(at, t, k, Epoch(c1))
    ensures Outstanding(c1, t, k) && CommitCount(c1.attempts, t) == CommitCount(m, t)
  {
    AppendCount(AttemptsOf(m, t), at);
  }

  lemma SentStage(c: Core, states: map<Id, TaskState>, used: set<Id>, t: Id, k: Id, at: Attempt, c1: Core)
    requires Stage(c, states, used) && Inv(c1) && t in states && at.id == k
    requires c1.graph == c.graph.(states := states[t := DISPATCHING]) && c1.nodes == c.nodes
    requires c1.cancelRequested == c.cancelRequested && c1.reservations.Keys == c.reservations.Keys + {k}
    requires c1.attempts == c.attempts[t := AttemptsOf(c.attempts, t) + [at]]
    ensures Stage(c1, states[t := DISPATCHING], used + {k})
  {
    hide Inv;
    StillEquipped(c, c1);
    hide Equipped;
    SentUsed(c, used, t, at, c1);
  }

  /** A new attempt on the node, with id and reservation `k`, numbered by those before it. */
  ghost predicate OnItsWay(x: Attempt, t: Id, k: Id, number: nat, epoch: U64) {
    && x.id == k && x.reservationId == k && x.taskId == t && x.nodeId == NODE && x.epoch == epoch && !x.committed
    && x.state == ATTEMPT_DISPATCHED && (number < TWO_32 ==> x.attemptNumber == number)
  }

  ghost predicate Appends(c: Core, c1: Core, t: Id, k: Id) {
    && t in c1.attempts && |c1.attempts[t]| == |AttemptsOf(c.attempts, t)| + 1
    && c1.attempts[t][..|AttemptsOf(c.attempts, t)|] == AttemptsOf(c.attempts, t)
    && OnItsWay(c1.attempts[t][|AttemptsOf(c.attempts, t)|], t, k, |AttemptsOf(c.attempts, t)|, Epoch(c1))
  }

  lemma SentAppends(c: Core, t: Id, k: Id, now: Int64)
    requires Inv(c) && t in c.graph.tasks && Modest(c.graph.tasks[t]) && t in c.graph.states && c.graph.states[t] == READY
    requires NODE in c.nodes && Available(c.nodes[NODE])
    requires Refusals(c.reservations, c.nodes[NODE], CPU, 1, 0) == None
    ensures Appends(c, Next(c, SendingEvent(t, k, now)), t, k)
  {
    var at := NewAttempt(Epoch(c), |AttemptsOf(c.attempts, t)|, t, c.nodes[NODE], CPU, Sending(k), now);
    assert OnItsWay(at, t, k, |AttemptsOf(c.attempts, t)|, Epoch(c));
    SentFrame(c, t, k, now);
    hide Inv, Next, Refusals, NewAttempt, OnItsWay, Modest, Available;
    LastAppended(AttemptsOf(c.attempts, t), at);
  }

  lemma LastAppended(list: seq<Attempt>, at: Attempt)
    ensures |list + [at]| == |list| + 1 && (list + [at])[..|list|] == list && (list + [at])[|list|] == at
  {
  }

  lemma Sent(c: Core, states: map<Id, TaskState>, used: set<Id>, t: Id, k: Id, now: Int64)
    requires Stage(c, states, used) && t in states && states[t] == READY && k !in used
    requires forall u :: u in states ==> !Executing(states[u])
    ensures var e := SendingEvent(t, k, now);
            && Enabled(c, e) && Stage(Next(c, e), states[t := DISPATCHING], used + {k})
            && Outstanding(Next(c, e), t, k) && CommitCount(Next(c, e).attempts, t) == CommitCount(c.attempts, t)
            && Next(c, e).dispatchAt == c.dispatchAt[t := now] && Appends(c, Next(c, e), t, k)
  {
    var e := SendingEvent(t, k, now);
    assert Enabled(c, e);
    SentGranted(c, t);
    SentAppends(c, t, k, now);
    var at := NewAttempt(Epoch(c), |AttemptsOf(c.attempts, t)|, t, c.nodes[NODE], CPU, Sending(k), now);
    assert Underway(at, t, k, Epoch(c));
    SentFrame(c, t, k, now);
    NextInv(c, e);
    hide Inv, Next, UsedOnly, Equipped, CommitCount, Enabled, Refusals, NewAttempt, Outstanding, Underway, Appends;
    SentStage(c, states, used, t, k, at, Next(c, e));
    AppendedOutstanding(c.attempts, t, k, at, Next(c, e));
  }

  // ----- messages about it -----

  lemma FoundLast(c: Core, t: Id, k: Id)
    requires MemoryInv(c) && Outstanding(c, t, k)
    ensures Known(c.attempts, k) && Find(c.attempts, k) == Spot(t, |c.attempts[t]| - 1)
  {
    var p := Spot(t, |c.attempts[t]| - 1);
    assert Holds(c.attempts, p, k);
    assert IdAt(c.attempts, Find(c.attempts, k)) == IdAt(c.attempts, p);
  }

  lemma PutKnown(m: map<Id, seq<Attempt>>, p: Spot, at: Attempt, a: Id)
    requires IsSpot(m, p) && m[p.task][p.index].id == at.id
    ensures Known(Put(m, p, at), a) ==> Known(m, a)
  {
    if Known(Put(m, p, at), a) {
      assert Holds(m, Find(Put(m, p, at), a), a);
    }
  }

  function InProgress(at: Attempt): Attempt {
    at.(state := ATTEMPT_STARTED, startedAtMs := 0, device := [])
  }

  function StartingEvent(k: Id): Event {
    Event(DoStarted(k, 0, []), 0, true)
  }

  /** The last attempt of `t` is in progress, the task running, and all else as before. */
  ghost predicate StartedTo(c: Core, t: Id, c1: Core)
    requires t in c.attempts && c.attempts[t] != []
  {
    var last := |c.attempts[t]| - 1;
    && c1.graph == c.graph.(states := c.graph.states[t := RUNNING])
    && c1.attempts == Put(c.attempts, Spot(t, last), InProgress(c.attempts[t][last]))
    && c1.reservations == c.reservations && c1.nodes == c.nodes && c1.cancelRequested == c.cancelRequested
    && Epoch(c1) == Epoch(c)
  }

  lemma StartedFrame(c: Core, t: Id, k: Id)
    requires Inv(c) && Outstanding(c, t, k) && t in c.graph.states && c.graph.states[t] == DISPATCHING
    ensures StartedTo(c, t, Next(c, StartingEvent(k)))
  {
    FoundLast(c, t, k);
    var p := Spot(t, |c.attempts[t]| - 1);
    hide Inv, Persist, Known;
    SaveFrame(SetTask(c.(attempts := Put(c.attempts, p, InProgress(c.attempts[t][p.index]))), t, RUNNING), true);
  }

  lemma StartedUsed(c: Core, used: set<Id>, t: Id, c1: Core)
    requires UsedOnly(c, used) && t in c.attempts && c.attempts[t] != [] && StartedTo(c, t, c1)
    ensures UsedOnly(c1, used)
  {
    hide Known;
    var p := Spot(t, |c.attempts[t]| - 1);
    forall a | Known(c1.attempts, a) ensures a in used {
      PutKnown(c.attempts, p, InProgress(c.attempts[t][p.index]), a);
    }
  }

  lemma StillOutstanding(c: Core, t: Id, k: Id, c1: Core)
    requires Outstanding(c, t, k) && StartedTo(c, t, c1)
    ensures Outstanding(c1, t, k)
  {
  }

  lemma StartedStage(c: Core, states: map<Id, TaskState>, used: set<Id>, t: Id, c1: Core)
    requires Stage(c, states, used) && Inv(c1) && t in states
    requires t in c.attempts && c.attempts[t] != [] && StartedTo(c, t, c1)
    ensures Stage(c1, states[t := RUNNING], used)
  {
    hide Inv;
    StillEquipped(c, c1);
    hide Equipped;
    StartedUsed(c, used, t, c1);
  }

  lemma Started(c: Core, states: map<Id, TaskState>, used: set<Id>, t: Id, k: Id)
    requires Stage(c, states, used) && Outstanding(c, t, k) && t in states && states[t] == DISPATCHING
    ensures var e := StartingEvent(k);
            Stage(Next(c, e), states[t := RUNNING], used) && Outstanding(Next(c, e), t, k)
  {
    var e := StartingEvent(k);
    hide Inv, Next, Equipped, UsedOnly, StartedTo, Underway;
    NextInv(c, e);
    StartedFrame(c, t, k);
    StartedStage(c, states, used, t, Next(c, e));
    StillOutstanding(c, t, k, Next(c, e));
  }

  function CompletingEvent(k: Id): Event {
    Event(DoComplete(k, k, OUTPUT), 0, true)
  }

  lemma WillCommit(c: Core, t: Id, k: Id)
    requires Inv(c) && Equipped(c) && Outstanding(c, t, k)
    requires TaskStateOf(c, t) == RUNNING || TaskStateOf(c, t) == DISPATCHING
    ensures CommitTask(c, CompletingEvent(k)) == Some(t)
  {
    hide MemoryInv, Known;
    FoundLast(c, t, k);
  }

  lemma CommitKnown(m: map<Id, seq<Attempt>>, m1: map<Id, seq<Attempt>>, t: Id, epoch: U64, a: Id)
    requires CommitAttempts(m, m1, t, epoch)
    ensures Known(m1, a) ==> Known(m, a)
  {
    hide CommitCount;
    if Known(m1, a) {
      assert Holds(m, Find(m1, a), a);
    }
  }

  lemma FinishedUsed(c: Core, used: set<Id>, t: Id, c1: Core)
    requires UsedOnly(c, used) && c1.reservations.Keys == c.reservations.Keys
    requires CommitAttempts(c.attempts, c1.attempts, t, Epoch(c))
    ensures UsedOnly(c1, used)
  {
    hide Known, CommitAttempts;
    forall a | Known(c1.attempts, a) ensures a in used { CommitKnown(c.attempts, c1.attempts, t, Epoch(c), a); }
  }

  lemma LoneCommit(deps: Edges, s: TaskState, s1: map<Id, TaskState>, t: Id)
    requires CommitStates(deps, map[t := s], s1, t)
    ensures s1 == map[t := if s == RUNNING then SUCCEEDED else DISPATCHING]
  {
  }

  /** The only task there is completes. */
  lemma Finished(c: Core, s: TaskState, used: set<Id>, t: Id, k: Id)
    requires Stage(c, map[t := s], used) && Outstanding(c, t, k) && (s == RUNNING || s == DISPATCHING)
    ensures var c1 := Next(c, CompletingEvent(k));
            && CommitTask(c, CompletingEvent(k)) == Some(t)
            && Stage(c1, map[t := if s == RUNNING then SUCCEEDED else DISPATCHING], used)
            && CommitCount(c1.attempts, t) == CommitCount(c.attempts, t) + 1 && c1.dispatchAt == c.dispatchAt
  {
    var e := CompletingEvent(k);
    var c1 := Next(c, e);
    assert c.cancelRequested == {} - {t};
    hide MemoryInv, DurableInv, Next, Equipped, UsedOnly, CommitTask, CommitCount, CommitStates, Outstanding;
    WillCommit(c, t, k);
    NextInv(c, e);
    NextHistory(c, e);
    CommitFrame(c, e);
    FinishedTasks(c, e);
    assert CommitAttempts(c.attempts, c1.attempts, t, Epoch(c));
    assert CommitCount(c1.attempts, t) == CommitCount(c.attempts, t) + 1;
    hide CommitAttempts;
    FinishedUsed(c, used, t, c1);
    LoneCommit(c.graph.deps, s, c1.graph.states, t);
    StillEquipped(c, c1);
  }

  lemma FinishedTasks(c: Core, e: Event)
    requires CommitTask(c, e).Some?
    ensures Next(c, e).graph.tasks == c.graph.tasks
  {
    hide Snapshot, CommittedAttempt, ReleasedBook, Unblocked, Known;
  }

  // ----- back to ready -----

  const LATER: Int64 := 10000

  function RequeueEvent(t: Id): Event {
    Event(DoRequeue(t), LATER, true)
  }

  lemma RequeuedFrame(c: Core, t: Id)
    requires t in c.graph.states && c.graph.states[t] == DISPATCHING && t in c.dispatchAt && c.dispatchAt[t] == 0
    ensures var c1 := Next(c, RequeueEvent(t));
            && c1.graph == c.graph.(states := c.graph.states[t := READY]) && c1.attempts == c.attempts
            && c1.nodes == c.nodes && c1.cancelRequested == c.cancelRequested
            && c1.reservations.Keys == c.reservations.Keys
  {
    hide Persist;
    var c1 := SetTask(ReleaseFor(c, t), t, READY);
    SaveFrame(c1.(readyAt := c1.readyAt[t := LATER]), true);
  }

  lemma Requeued(c: Core, states: map<Id, TaskState>, used: set<Id>, t: Id)
    requires Stage(c, states, used) && t in states && states[t] == DISPATCHING
    requires t in c.dispatchAt && c.dispatchAt[t] == 0
    ensures var c1 := Next(c, RequeueEvent(t));
            Stage(c1, states[t := READY], used) && c1.attempts == c.attempts
  {
    hide Inv, Next;
    NextInv(c, RequeueEvent(t));
    RequeuedFrame(c, t);
    StillEquipped(c, Next(c, RequeueEvent(t)));
    hide Equipped;
    SameUsed(c, Next(c, RequeueEvent(t)), used);
  }

  // ----- the runs -----

  const TASK_ID: Id := 2
  const LATE_ID: Id := 3

  /** A run so far. */
  ghost predicate Leads(c0: Core, run: seq<Event>, c: Core) {
    Initial(c0) && Possible(c0, run) && After(c0, run) == c
  }

  lemma LeadsOn(c0: Core, run: seq<Event>, c: Core, e: Event)
    requires Leads(c0, run, c) && Enabled(c, e)
    ensures Leads(c0, run + [e], Next(c, e))
  {
    hide Initial, Next, Enabled;
    AfterSnoc(c0, run, e);
  }

  lemma LeadsReachable(c0: Core, run: seq<Event>, c: Core)
    requires Leads(c0, run, c)
    ensures Reachable(c)
  {
  }

  /** A node joins, a task is submitted and sent out. */
  lemma FirstDispatch() returns (c0: Core, run: seq<Event>, c: Core)
    ensures Leads(c0, run, c) && AllSaved(run)
    ensures Stage(c, map[TASK_ID := DISPATCHING], {4}) && Outstanding(c, TASK_ID, 4)
    ensures CommitCount(c.attempts, TASK_ID) == 0 && TASK_ID in c.dispatchAt && c.dispatchAt[TASK_ID] == 0
    ensures FirstOut(c)
  {
    c0 := Begin();
    hide Stage, Initial, Next, Outstanding, OnItsWay;
    run := [];
    assert Leads(c0, run, c0);
    Joined(c0);
    var c1 := Next(c0, Joining());
    LeadsOn(c0, run, c0, Joining());
    run := run + [Joining()];
    Entered(c1, map[], {}, TASK_ID, []);
    var c2 := Next(c1, Submitting(TASK_ID, []));
    LeadsOn(c0, run, c1, Submitting(TASK_ID, []));
    run := run + [Submitting(TASK_ID, [])];
    Sent(c2, map[TASK_ID := READY], {}, TASK_ID, 4, 0);
    c := Next(c2, SendingEvent(TASK_ID, 4, 0));
    LeadsOn(c0, run, c2, SendingEvent(TASK_ID, 4, 0));
    run := run + [SendingEvent(TASK_ID, 4, 0)];
    OneTask(READY, DISPATCHING);
    assert {} + {4} == {4};
  }

  /** The first attempt of the task is on its way, and there is no other. */
  ghost predicate FirstOut(c: Core) {
    TASK_ID in c.attempts && |c.attempts[TASK_ID]| == 1 && OnItsWay(c.attempts[TASK_ID][0], TASK_ID, 4, 0, Epoch(c))
  }

  lemma OneTask(a: TaskState, b: TaskState)
    ensures map[TASK_ID := a][TASK_ID := b] == map[TASK_ID := b]
  {
  }

  /** It completes while dispatching, and is ready again when the dispatch times out. */
  lemma ReadyAgain() returns (c0: Core, run: seq<Event>, c: Core)
    ensures Leads(c0, run, c) && AllSaved(run)
    ensures Stage(c, map[TASK_ID := READY], {4}) && CommitCount(c.attempts, TASK_ID) == 1
  {
    var c1;
    c0, run, c1 := FirstDispatch();
    hide Stage, Initial, Next, Outstanding, CommitCount, Leads;
    Finished(c1, DISPATCHING, {4}, TASK_ID, 4);
    var c2 := Next(c1, CompletingEvent(4));
    LeadsOn(c0, run, c1, CompletingEvent(4));
    run := run + [CompletingEvent(4)];
    Requeued(c2, map[TASK_ID := DISPATCHING], {4}, TASK_ID);
    c := Next(c2, RequeueEvent(TASK_ID));
    LeadsOn(c0, run, c2, RequeueEvent(TASK_ID));
    run := run + [RequeueEvent(TASK_ID)];
    OneTask(DISPATCHING, READY);
  }

  /** A run whose saves all succeed and in which one task commits twice. */
  lemma CommitsTwice() returns (c0: Core, run: seq<Event>)
    ensures Initial(c0) && Possible(c0, run) && AllSaved(run)
    ensures CommitCount(After(c0, run).attempts, TASK_ID) == 2
  {
    var c2;
    c0, run, c2 := ReadyAgain();
    hide Stage, Initial, Next, Outstanding, CommitCount;
    Sent(c2, map[TASK_ID := READY], {4}, TASK_ID, 5, LATER);
    OneTask(READY, DISPATCHING);
    assert {4} + {5} == {4, 5};
    var c3 := Next(c2, SendingEvent(TASK_ID, 5, LATER));
    LeadsOn(c0, run, c2, SendingEvent(TASK_ID, 5, LATER));
    run := run + [SendingEvent(TASK_ID, 5, LATER)];
    Finished(c3, DISPATCHING, {4, 5}, TASK_ID, 5);
    LeadsOn(c0, run, c3, CompletingEvent(5));
    run := run + [CompletingEvent(5)];
  }

  /** A reachable state and a submission that comes too late in it. */
  lemma ComesTooLate() returns (c: Core, e: Event)
    ensures Reachable(c) && Late(c, e, LATE_ID) && e.saved && e.step.task.dependencies == [TASK_ID]
  {
    var c0, run, c1;
    c0, run, c1 := FirstDispatch();
    hide Stage, Initial, Next, Outstanding;
    Started(c1, map[TASK_ID := DISPATCHING], {4}, TASK_ID, 4);
    var c2 := Next(c1, StartingEvent(4));
    LeadsOn(c0, run, c1, StartingEvent(4));
    run := run + [StartingEvent(4)];
    OneTask(DISPATCHING, RUNNING);
    Finished(c2, RUNNING, {4}, TASK_ID, 4);
    c := Next(c2, CompletingEvent(4));
    LeadsOn(c0, run, c2, CompletingEvent(4));
    LeadsReachable(c0, run + [CompletingEvent(4)], c);
    e := Submitting(LATE_ID, [TASK_ID]);
    Entered(c, map[TASK_ID := SUCCEEDED], {4}, LATE_ID, [TASK_ID]);
    SucceededStage(c);
  }

  lemma SucceededStage(c: Core)
    requires Stage(c, map[TASK_ID := SUCCEEDED], {4})
    ensures SucceededIn(c.graph.states, TASK_ID)
  {
  }

  // ----- a lost save -----

  function CancellingEvent(t: Id): Event {
    Event(DoCancel(t), 0, false)
  }

  function RestartingEvent(): Event {
    Event(DoRestart, 0, true)
  }

  lemma Submitted(c: Core)
    requires Inv(c) && c.graph.tasks == map[] && c.graph.states == map[]
    ensures var c1 := Next(c, Submitting(TASK_ID, []));
            && Inv(c1) && Synced(c1) && Epoch(c1) == Epoch(c)
            && TASK_ID in c1.graph.tasks && c1.graph.states == map[TASK_ID := READY]
  {
    var e := Submitting(TASK_ID, []);
    assert Admits(c, e);
    NextInv(c, e);
    NextEpoch(c, e);
    SubmissionSynced(c, e);
    SubmissionGraph(c, e);
    hide MemoryInv, DurableInv, Next, Synced;
    EntryStates(c.graph, e.step.task);
    hide Extended, SetState;
  }

  lemma CancelledUnsaved(c: Core)
    requires TASK_ID in c.graph.tasks && c.graph.states == map[TASK_ID := READY]
    ensures var c1 := Next(c, CancellingEvent(TASK_ID));
            c1.disk == c.disk && c1.graph.states == map[TASK_ID := CANCELLED]
  {
    hide Snapshot, ReleasedBook;
  }

  lemma BackToReady(c: Core)
    requires Inv(c) && c.disk.epoch == 2 && c.disk.taskStates == map[TASK_ID := READY]
    ensures Enabled(c, RestartingEvent())
    ensures TASK_ID in Next(c, RestartingEvent()).graph.states
    ensures Next(c, RestartingEvent()).graph.states[TASK_ID] == READY
  {
    hide Inv, Next, DepsOf;
    RestartResumes(c, RestartingEvent());
  }

  lemma SyncedDisk(c: Core, states: map<Id, TaskState>)
    requires Synced(c) && c.graph.states == states
    ensures c.disk.epoch == Epoch(c) && c.disk.taskStates == states
  {
  }

  lemma AlwaysEnabled(c: Core, e: Event)
    requires !e.step.DoSchedule? && !e.step.DoRestart?
    ensures Enabled(c, e)
  {
  }

  /** A reachable state with a task cancelled in it, whose restart brings the task back as
      ready: the save after the cancellation was lost. */
  lemma FinalLost() returns (c: Core)
    ensures Reachable(c) && Inv(c) && Enabled(c, RestartingEvent())
    ensures c.graph.states == map[TASK_ID := CANCELLED]
    ensures TASK_ID in Next(c, RestartingEvent()).graph.states
    ensures Next(c, RestartingEvent()).graph.states[TASK_ID] == READY
  {
    var c0 := Begin();
    var e1, e2 := Submitting(TASK_ID, []), CancellingEvent(TASK_ID);
    hide Inv, Next, Initial, Enabled, Synced, Epoch;
    assert Leads(c0, [], c0);
    hide Leads, Reachable;
    Submitted(c0);
    var c1 := Next(c0, e1);
    AlwaysEnabled(c0, e1);
    AlwaysEnabled(c1, e2);
    SyncedDisk(c1, map[TASK_ID := READY]);
    CancelledUnsaved(c1);
    c := Next(c1, e2);
    NextInv(c1, e2);
    LeadsOn(c0, [], c0, e1);
    LeadsOn(c0, [] + [e1], c1, e2);
    LeadsReachable(c0, [] + [e1] + [e2], c);
    BackToReady(c);
  }

  // ----- a late message -----

  const DEVICE: Bytes := [1]

  function LateStart(): Event {
    Event(DoStarted(4, 0, DEVICE), 0, true)
  }

  const FIRST: Spot := Spot(TASK_ID, 0)

  /** The only attempt of the task is committed. */
  ghost predicate FirstCommitted(c: Core) {
    && TASK_ID in c.attempts && |c.attempts[TASK_ID]| == 1
    && c.attempts[TASK_ID][0].id == 4 && c.attempts[TASK_ID][0].committed && c.attempts[TASK_ID][0].epoch == Epoch(c)
  }

  lemma CommitsFirst(c: Core)
    requires Inv(c) && FirstOut(c) && TaskStateOf(c, TASK_ID) == DISPATCHING && c.cancelRequested == {}
    ensures FirstCommitted(Next(c, CompletingEvent(4))) && Next(c, CompletingEvent(4)).attempts[TASK_ID][0].device == []
  {
    var e := CompletingEvent(4);
    assert Holds(c.attempts, FIRST, 4);
    CompletionDelivers(c, e, FIRST);
    NextEpoch(c, e);
    hide Inv, Next, CommitTask, Freed, Rest, Written;
  }

  lemma StartsLate(c: Core)
    requires Inv(c) && FirstCommitted(c) && TaskStateOf(c, TASK_ID) == DISPATCHING
    ensures var c1 := Next(c, LateStart());
            && FirstCommitted(c1) && c1.attempts[TASK_ID][0].device == DEVICE && TaskStateOf(c1, TASK_ID) == RUNNING
            && c1.nodes == c.nodes && Inv(c1)
  {
    assert Holds(c.attempts, FIRST, 4);
    StartedMarks(c, LateStart(), FIRST);
    NextEpoch(c, LateStart());
    NextInv(c, LateStart());
    hide Inv, Next, Written;
  }

  lemma NothingToLose(c: Core)
    requires FirstCommitted(c)
    ensures !AtWork(c.attempts, TASK_ID, NODE)
  {
  }

  lemma GoesOnRunning(c: Core, e: Event)
    requires Inv(c) && e.step == DoLoseNode(NODE) && Up(c.nodes, NODE) && FirstCommitted(c)
    requires TaskStateOf(c, TASK_ID) == RUNNING
    ensures TaskStateOf(Next(c, e), TASK_ID) == RUNNING && !Up(Next(c, e).nodes, NODE)
  {
    NothingToLose(c);
    LossSays(c, e);
    hide Inv, Next, Written, AtWork, LossHoldings, FirstCommitted;
  }

  lemma StageFacts(c: Core, s: TaskState, used: set<Id>)
    requires Stage(c, map[TASK_ID := s], used)
    ensures Inv(c) && TaskStateOf(c, TASK_ID) == s && c.cancelRequested == {} && Up(c.nodes, NODE)
    ensures TASK_ID in c.graph.tasks && c.graph.tasks[TASK_ID].retry == TWICE
  {
    hide Inv;
    KnownTasks(c);
  }

  /** A task commits while Dispatching, and then its started message arrives: the device it
      delivered is replaced, the task runs with no attempt left to complete, and the loss of its
      node leaves it so. */
  lemma LeftRunning() returns (c: Core, c1: Core, e: Event)
    ensures Reachable(c) && FirstCommitted(c) && c.attempts[TASK_ID][0].device == []
    ensures c1 == Next(c, LateStart()) && Reachable(c1)
    ensures FirstCommitted(c1) && c1.attempts[TASK_ID][0].device == DEVICE && TaskStateOf(c1, TASK_ID) == RUNNING
    ensures e.step == DoLoseNode(NODE) && Up(c1.nodes, NODE) && !Up(Next(c1, e).nodes, NODE)
    ensures TaskStateOf(Next(c1, e), TASK_ID) == RUNNING
  {
    var c0, run, x;
    c0, run, x := FirstDispatch();
    StageFacts(x, DISPATCHING, {4});
    hide Inv, Next, Initial, Stage, Outstanding, CommitCount, FirstOut, FirstCommitted, Leads, Reachable;
    CommitsFirst(x);
    Finished(x, DISPATCHING, {4}, TASK_ID, 4);
    c := Next(x, CompletingEvent(4));
    StageFacts(c, DISPATCHING, {4});
    LeadsOn(c0, run, x, CompletingEvent(4));
    LeadsReachable(c0, run + [CompletingEvent(4)], c);
    StartsLate(c);
    c1 := Next(c, LateStart());
    LeadsOn(c0, run + [CompletingEvent(4)], c, LateStart());
    LeadsReachable(c0, run + [CompletingEvent(4)] + [LateStart()], c1);
    e := Event(DoLoseNode(NODE), 0, true);
    GoesOnRunning(c1, e);
  }

  // ----- a failure that is not final -----

  function FailingEvent(k: Id): Event {
    Event(DoFailed(k, EXECUTOR_FAILED, []), 0, true)
  }

  const SECOND: Spot := Spot(TASK_ID, 1)

  /** Both attempts the policy has were sent out; the first is still on record as on its way. */
  ghost predicate BothOut(c: Core) {
    && TASK_ID in c.attempts && |c.attempts[TASK_ID]| == 2
    && OnItsWay(c.attempts[TASK_ID][0], TASK_ID, 4, 0, Epoch(c))
    && var x := c.attempts[TASK_ID][1];
       x.id == 5 && x.attemptNumber == 1 && x.epoch == Epoch(c) && !x.committed && x.state != ATTEMPT_SUCCEEDED
  }

  lemma SecondOut(c: Core, c1: Core)
    requires FirstOut(c) && Appends(c, c1, TASK_ID, 5) && Epoch(c1) == Epoch(c)
    ensures BothOut(c1)
  {
    assert c1.attempts[TASK_ID][0] == c1.attempts[TASK_ID][..1][0];
  }

  lemma StartsSecond(c: Core)
    requires Inv(c) && BothOut(c)
    ensures BothOut(Next(c, StartingEvent(5)))
  {
    var e := StartingEvent(5);
    assert Holds(c.attempts, SECOND, 5);
    StartedMarks(c, e, SECOND);
    NextEpoch(c, e);
    hide Inv, Next, Written;
    assert IsSpot(c.attempts, FIRST) && FIRST != SECOND;
  }

  lemma FailsSecond(c: Core)
    requires Inv(c) && BothOut(c) && TaskStateOf(c, TASK_ID) == RUNNING
    requires TASK_ID in c.graph.tasks && c.graph.tasks[TASK_ID].retry == TWICE
    ensures var c1 := Next(c, FailingEvent(5));
            && BothOut(c1) && TaskStateOf(c1, TASK_ID) == FAILED && c1.nodes == c.nodes
            && TASK_ID in c1.graph.tasks && c1.graph.tasks[TASK_ID].retry == TWICE && Inv(c1)
  {
    var e := FailingEvent(5);
    assert Holds(c.attempts, SECOND, 5);
    FailureDecides(c, e, SECOND);
    NextEpoch(c, e);
    NextInv(c, e);
    hide Inv, Next, Written, Freed, Timed;
    assert IsSpot(c.attempts, FIRST) && FIRST != SECOND;
  }

  lemma RevivedBoth(c: Core)
    requires Inv(c) && BothOut(c) && TaskStateOf(c, TASK_ID) == FAILED && Up(c.nodes, NODE)
    requires TASK_ID in c.graph.tasks && c.graph.tasks[TASK_ID].retry == TWICE
    ensures TaskStateOf(Next(c, FailingEvent(4)), TASK_ID) == RETRY_PENDING
    ensures TaskStateOf(Next(c, Event(DoLoseNode(NODE), 0, true)), TASK_ID) == RETRY_PENDING
  {
    assert Holds(c.attempts, FIRST, 4) && FIRST.task == TASK_ID;
    assert FailsAgain(c, FailingEvent(4), TASK_ID);
    assert LosesAgain(c, Event(DoLoseNode(NODE), 0, true), TASK_ID) by {
      assert c.attempts[TASK_ID][0].nodeId == NODE;
    }
    hide MemoryInv, DurableInv, Next, FailsAgain, LosesAgain;
    FailedLeavesIff(c, FailingEvent(4), TASK_ID);
    FailedLeavesIff(c, Event(DoLoseNode(NODE), 0, true), TASK_ID);
  }

  /** The task is ready again because its dispatch timed out, the attempt still on record. */
  lemma FirstTimedOut() returns (c0: Core, run: seq<Event>, c: Core)
    ensures Leads(c0, run, c) && Stage(c, map[TASK_ID := READY], {4}) && FirstOut(c)
  {
    var x;
    c0, run, x := FirstDispatch();
    StageFacts(x, DISPATCHING, {4});
    Requeued(x, map[TASK_ID := DISPATCHING], {4}, TASK_ID);
    NextEpoch(x, RequeueEvent(TASK_ID));
    OneTask(DISPATCHING, READY);
    c := Next(x, RequeueEvent(TASK_ID));
    hide Inv, Next, Initial, Stage, Outstanding, Leads, OnItsWay;
    LeadsOn(c0, run, x, RequeueEvent(TASK_ID));
    run := run + [RequeueEvent(TASK_ID)];
  }

  lemma SentAgain(x: Core)
    requires Stage(x, map[TASK_ID := READY], {4})
    ensures var e := SendingEvent(TASK_ID, 5, LATER);
            && Enabled(x, e) && Stage(Next(x, e), map[TASK_ID := DISPATCHING], {4, 5})
            && Outstanding(Next(x, e), TASK_ID, 5) && Appends(x, Next(x, e), TASK_ID, 5)
  {
    hide Stage, Next, Outstanding, Appends, CommitCount, Enabled;
    OneTask(READY, DISPATCHING);
    assert {4} + {5} == {4, 5};
    Sent(x, map[TASK_ID := READY], {4}, TASK_ID, 5, LATER);
  }

  lemma SameEpoch(x: Core, e: Event)
    requires Inv(x) && Enabled(x, e) && !e.step.DoRestart?
    ensures Epoch(Next(x, e)) == Epoch(x)
  {
    hide Inv, Next, Enabled;
    NextEpoch(x, e);
  }

  lemma LastOut() returns (c0: Core, run: seq<Event>, c: Core)
    ensures Leads(c0, run, c) && Stage(c, map[TASK_ID := DISPATCHING], {4, 5}) && BothOut(c) && Outstanding(c, TASK_ID, 5)
  {
    var x;
    c0, run, x := FirstTimedOut();
    var e := SendingEvent(TASK_ID, 5, LATER);
    hide Inv, Next, Initial, Stage, Outstanding, Leads, FirstOut, BothOut, Appends, Enabled, Epoch;
    StageFacts(x, READY, {4});
    SentAgain(x);
    c := Next(x, e);
    SameEpoch(x, e);
    SecondOut(x, c);
    LeadsOn(c0, run, x, e);
    run := run + [e];
  }

  /** The second and last attempt is out and running. */
  lemma LastRunning() returns (c0: Core, run: seq<Event>, c: Core)
    ensures Leads(c0, run, c) && Stage(c, map[TASK_ID := RUNNING], {4, 5}) && BothOut(c)
  {
    var x;
    c0, run, x := LastOut();
    StageFacts(x, DISPATCHING, {4, 5});
    hide Inv, Next, Initial, Stage, Outstanding, Leads, BothOut;
    Started(x, map[TASK_ID := DISPATCHING], {4, 5}, TASK_ID, 5);
    StartsSecond(x);
    OneTask(DISPATCHING, RUNNING);
    c := Next(x, StartingEvent(5));
    LeadsOn(c0, run, x, StartingEvent(5));
    run := run + [StartingEvent(5)];
  }

  /** A reachable state in which a task has failed with its last attempt, and yet waits for a
      retry after a failure message for its first attempt, or after the loss of the node. */
  lemma FailedRevived() returns (c: Core)
    ensures Reachable(c) && BothOut(c) && TaskStateOf(c, TASK_ID) == FAILED
    ensures TaskStateOf(Next(c, FailingEvent(4)), TASK_ID) == RETRY_PENDING
    ensures TaskStateOf(Next(c, Event(DoLoseNode(NODE), 0, true)), TASK_ID) == RETRY_PENDING
  {
    var c0, run, x;
    c0, run, x := LastRunning();
    StageFacts(x, RUNNING, {4, 5});
    hide Inv, Next, Initial, Stage, Leads, BothOut, Reachable;
    FailsSecond(x);
    c := Next(x, FailingEvent(5));
    LeadsOn(c0, run, x, FailingEvent(5));
    LeadsReachable(c0, run + [FailingEvent(5)], c);
    RevivedBoth(c);
  }
}
