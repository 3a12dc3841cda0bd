/**
 What a step does to task states and to committed attempts.
 */
module CoordinatorHistory {
  import opened Basics
  import opened Types
  import opened Paths
  import opened TaskGraphs
  import opened Reservations
  import opened CoordinatorCore
  import opened CoordinatorInvariants
  import Lifecycle

  // ----- counting committed attempts -----

  function CommitCount(attempts: map<Id, seq<Attempt>>, t: Id): nat {
    if t in attempts then |CommittedOnly(attempts[t])| else 0
  }

  function One(b: bool): nat {
    if b then 1 else 0
  }

  lemma {:induction false} ReplaceCount(list: seq<Attempt>, i: nat, a: Attempt)
    requires i < |list|
    ensures |CommittedOnly(list[i := a])| + One(list[i].committed) == |CommittedOnly(list)| + One(a.committed)
    decreases |list|
  {
    var l := list[i := a];
    if i == 0 {
      assert l[1..] == list[1..];
    } else {
      assert l[1..] == list[1..][i - 1 := a];
      ReplaceCount(list[1..], i - 1, a);
    }
  }

  lemma {:induction false} AppendCount(list: seq<Attempt>, a: Attempt)
    ensures |CommittedOnly(list + [a])| == |CommittedOnly(list)| + One(a.committed)
    decreases |list|
  {
    if list == [] {
      assert (list + [a])[1..] == [];
    } else {
      assert (list + [a])[1..] == list[1..] + [a];
      AppendCount(list[1..], a);
    }
  }

  /** Every attempt stays where it is with its origin and its result; those of other epochs
      stay as they are; new ones are not committed; and no commitment is added. */
  ghost predicate Carries(m: map<Id, seq<Attempt>>, m1: map<Id, seq<Attempt>>, epoch: U64) {
    && (forall p :: IsSpot(m, p) ==> IsSpot(m1, p) && Kept(m[p.task][p.index], m1[p.task][p.index], epoch))
    && (forall p :: IsSpot(m1, p) && !IsSpot(m, p) ==> !m1[p.task][p.index].committed)
    && (forall t :: CommitCount(m1, t) == CommitCount(m, t))
  }

  ghost predicate Kept(a: Attempt, b: Attempt, epoch: U64) {
    SameOrigin(a, b) && SameResult(a, b) && (a.epoch != epoch ==> b == a)
  }

  /** What an attempt is: set when it is sent out. */
  ghost predicate SameOrigin(a: Attempt, b: Attempt) {
    && b.id == a.id && b.taskId == a.taskId && b.nodeId == a.nodeId && b.nodeSession == a.nodeSession
    && b.epoch == a.epoch && b.reservationId == a.reservationId && b.executor == a.executor
    && b.attemptNumber == a.attemptNumber && b.dispatchedAtMs == a.dispatchedAtMs
  }

  /** What it delivered, if anything. */
  ghost predicate SameResult(a: Attempt, b: Attempt) {
    && b.outputSize == a.outputSize && b.outputIntegrity == a.outputIntegrity && b.cpuMillis == a.cpuMillis
    && b.bytesTransferred == a.bytesTransferred && b.committed == a.committed
  }

  lemma PutCarries(m: map<Id, seq<Attempt>>, p: Spot, a: Attempt, epoch: U64)
    requires IsSpot(m, p) && Kept(m[p.task][p.index], a, epoch)
    ensures Carries(m, Put(m, p, a), epoch)
  {
    ReplaceCount(m[p.task], p.index, a);
  }

  // ----- task states -----

  ghost predicate Moves(a: TaskState, b: TaskState) {
    && (a == SUCCEEDED <==> b == SUCCEEDED)
    && (a == CANCELLED || a == EXPIRED ==> b == a)
    && (a == BLOCKED ==> b == BLOCKED || b == CANCELLED || b == EXPIRED)
    && (b == BLOCKED ==> a == BLOCKED)
  }

  /** Tasks and edges are kept, Succeeded is neither entered nor left, Cancelled and
      Expired are not left, and Blocked is not entered, nor left for Ready. */
  ghost predicate Evolves(g: Graph, g1: Graph) {
    && (forall t :: t in g.states ==> t in g1.states && Moves(g.states[t], g1.states[t]))
    && (forall t :: t in g1.states && t !in g.states ==> g1.states[t] != SUCCEEDED)
    && (forall t :: t in g.deps ==> t in g1.deps && g1.deps[t] == g.deps[t])
  }

  /** The same, and no task is new. */
  ghost predicate Stays(g: Graph, g1: Graph) {
    Evolves(g, g1) && g1.states.Keys == g.states.Keys
  }

  lemma StaysTrans(g: Graph, g1: Graph, g2: Graph)
    requires Stays(g, g1) && Stays(g1, g2)
    ensures Stays(g, g2)
  {
    forall t | t in g.states ensures t in g2.states && Moves(g.states[t], g2.states[t]) {
      assert Moves(g.states[t], g1.states[t]);
    }
  }

  lemma SetStateStays(g: Graph, t: Id, s: TaskState)
    requires s != SUCCEEDED && s != BLOCKED && (s == READY ==> StateOf(g, t) != BLOCKED)
    ensures Stays(g, SetState(g, t, s))
  {
  }

  /** A step that commits nothing. */
  ghost predicate Quiet(c: Core, c1: Core) {
    Epoch(c1) == Epoch(c) && Evolves(c.graph, c1.graph) && Carries(c.attempts, c1.attempts, Epoch(c))
  }

  /** A step that commits nothing and submits nothing. */
  ghost predicate Calm(c: Core, c1: Core) {
    Epoch(c1) == Epoch(c) && Stays(c.graph, c1.graph) && Carries(c.attempts, c1.attempts, Epoch(c))
  }

  lemma CalmIsQuiet(c: Core, c1: Core)
    requires Calm(c, c1)
    ensures Quiet(c, c1)
  {
    hide Carries, Evolves;
  }

  lemma CalmSelf(c: Core)
    ensures Calm(c, c)
  {
  }

  lemma QuietPersist(c: Core, c1: Core, saved: bool)
    requires Quiet(c, c1)
    ensures Quiet(c, Persist(c1, saved))
  {
    PersistFrame(c1, saved);
    hide Carries, Evolves;
  }

  lemma CalmPersist(c: Core, c1: Core, saved: bool)
    requires Calm(c, c1)
    ensures Calm(c, Persist(c1, saved))
  {
    hide Carries, Stays;
    PersistFrame(c1, saved);
  }

  lemma CarriesSelf(m: map<Id, seq<Attempt>>, epoch: U64)
    ensures Carries(m, m, epoch)
  {
  }

  lemma StaysSelf(g: Graph)
    ensures Stays(g, g)
  {
  }

  // ----- the handlers that commit nothing -----

  lemma AddedEvolves(g: Graph, task: ComputeTask)
    requires WellFormed(g) && task.id !in g.tasks
    ensures Evolves(g, Added(g, task).0)
    ensures Added(g, task).1 == Done ==> Evolves(g, SetState(Added(g, task).0, task.id, InitialState(task)))
  {
    hide CycleFrom, AddReverse, DropReverse;
    if Added(g, task).1 == Done {
      ExtendedEvolves(g, task);
    }
  }

  lemma ExtendedEvolves(g: Graph, task: ComputeTask)
    requires WellFormed(g) && task.id !in g.tasks
    ensures Evolves(g, Extended(g, task))
    ensures Evolves(g, SetState(Extended(g, task), task.id, InitialState(task)))
  {
    hide AddReverse;
  }

  lemma SubmitQuiet(c: Core, task: ComputeTask, workloadId: Id, workloadName: Bytes, stopping: bool, now: Int64, saved: bool)
    requires WellFormed(c.graph)
    ensures Quiet(c, Submit(c, task, workloadId, workloadName, stopping, now, saved))
  {
    CalmSelf(c);
    CalmIsQuiet(c, c);
    if task.id !in c.graph.tasks {
      AddedEvolves(c.graph, task);
      hide Carries, Evolves, Added, SetState, InitialState, Persist;
      var c1 := c.(graph := SetState(Added(c.graph, task).0, task.id, InitialState(task)),
                   durable := WithWorkload(c.durable, workloadId, workloadName),
                   readyAt := c.readyAt[task.id := now]);
      if Added(c.graph, task).1 == Done { QuietPersist(c, c1, saved); }
    }
  }

  lemma EntryCarries(m: map<Id, seq<Attempt>>, t: Id, epoch: U64)
    ensures Carries(m, WithEntry(m, t), epoch)
  {
  }

  lemma CancelCalm(c: Core, t: Id, saved: bool)
    ensures Calm(c, Cancel(c, t, saved))
  {
    CalmSelf(c);
    EntryCarries(c.attempts, t, Epoch(c));
    SetStateStays(c.graph, t, CANCELLED);
    hide Carries, Stays, SetState, ReleasedBook, WithEntry, Persist;
    hide Lifecycle.IsLegal, Lifecycle.IsTerminal;
    var c1 := ReleaseFor(SetTask(c, t, CANCELLED), t);
    CalmPersist(c, c1.(cancelRequested := c1.cancelRequested - {t}), saved);
  }

  /** A message about the found attempt: the attempt changes in place, uncommitted as
      before, and its task may move. */
  lemma AttemptCalm(c: Core, c1: Core, a: Id, at: Attempt, t: Id, s: TaskState, saved: bool)
    requires Known(c.attempts, a)
    requires var p := Find(c.attempts, a);
             Kept(c.attempts[p.task][p.index], at, Epoch(c)) && c1.attempts == Put(c.attempts, p, at)
    requires c1.graph == SetState(c.graph, t, s) && Epoch(c1) == Epoch(c)
    requires s != SUCCEEDED && s != READY && s != BLOCKED
    ensures Calm(c, Persist(c1, saved))
  {
    hide Carries, Stays, SetState, Persist;
    PutCarries(c.attempts, Find(c.attempts, a), at, Epoch(c));
    SetStateStays(c.graph, t, s);
    CalmPersist(c, c1, saved);
  }

  lemma StartAttemptCalm(c: Core, a: Id, startedAt: Int64, device: Bytes, saved: bool)
    ensures Calm(c, StartAttempt(c, a, startedAt, device, saved))
  {
    hide Calm, SetState, Persist, Known;
    CalmSelf(c);
    if Known(c.attempts, a) {
      var p := Find(c.attempts, a);
      var at := c.attempts[p.task][p.index];
      if at.epoch == Epoch(c) {
        var at1 := at.(state := ATTEMPT_STARTED, startedAtMs := startedAt, device := device);
        var c1 := SetTask(c.(attempts := Put(c.attempts, p, at1)), at.taskId, RUNNING);
        AttemptCalm(c, c1, a, at1, at.taskId, RUNNING, saved);
      }
    }
  }

  lemma FailAttemptCalm(c: Core, a: Id, kind: FailureKind, reason: Bytes, now: Int64, saved: bool)
    ensures Calm(c, FailAttempt(c, a, kind, reason, now, saved))
  {
    hide Calm, SetState, Persist, Known, ReleasedBook, StartBackoff, MayRetry;
    CalmSelf(c);
    if Known(c.attempts, a) {
      var p := Find(c.attempts, a);
      var at := c.attempts[p.task][p.index];
      if at.epoch == Epoch(c) {
        var at1 := at.(state := ATTEMPT_FAILED, failureKind := kind, failureReason := reason, completedAtMs := now);
        var retries := at.taskId in c.graph.tasks && MayRetry(c.graph.tasks[at.taskId], at.attemptNumber, kind)
                       && TaskStateOf(c, at.taskId) != SUCCEEDED;
        var s := if retries then RETRY_PENDING else FAILED;
        var c1 := ReleaseFor(c.(attempts := Put(c.attempts, p, at1)), at.taskId).(
                    graph := SetState(c.graph, at.taskId, s),
                    retryReadyAt := StartBackoff(c.retryReadyAt, c.graph, at.taskId, retries, now));
        AttemptCalm(c, c1, a, at1, at.taskId, s, saved);
      }
    }
  }

  lemma CancelledByNodeCalm(c: Core, a: Id, reason: Bytes, now: Int64, saved: bool)
    ensures Calm(c, CancelledByNode(c, a, reason, now, saved))
  {
    hide Calm, SetState, Persist, Known, ReleasedBook;
    CalmSelf(c);
    if Known(c.attempts, a) {
      var p := Find(c.attempts, a);
      var at := c.attempts[p.task][p.index];
      if at.epoch == Epoch(c) {
        var at1 := at.(state := ATTEMPT_CANCELLED, failureKind := FAILURE_CANCELLED, failureReason := reason,
                       completedAtMs := now);
        var c1 := SetTask(ReleaseFor(c.(attempts := Put(c.attempts, p, at1)), at.taskId), at.taskId, PREEMPTED);
        AttemptCalm(c, c1, a, at1, at.taskId, PREEMPTED, saved);
      }
    }
  }

  /** A completion that does not commit. The invariant matters here: the check that
      cancels does not look at the epoch, but an attempt of an earlier epoch is
      committed and never gets that far. */
  lemma RejectedCompletionCalm(c: Core, a: Id, reservation: Id, out: Output, now: Int64, saved: bool)
    requires AttemptsInv(c.attempts, c.graph.tasks.Keys, Epoch(c)) && !Commits(c, a, reservation)
    ensures Calm(c, CompleteAttempt(c, a, reservation, out, now, saved))
  {
    CalmSelf(c);
    if Known(c.attempts, a) {
      var p := Find(c.attempts, a);
      var at := c.attempts[p.task][p.index];
      assert AttemptOk(at, p.task, Epoch(c));
      hide Calm, SetState, Persist, Known, ReleasedBook, AttemptsInv, Unblock;
      if !at.committed && at.taskId in c.cancelRequested {
        var at1 := at.(state := ATTEMPT_CANCELLED, failureKind := FAILURE_CANCELLED,
                       failureReason := CANCELLED_TEXT, completedAtMs := now);
        var c1 := ReleaseFor(SetTask(c.(attempts := Put(c.attempts, p, at1)), at.taskId, PREEMPTED), at.taskId);
        AttemptCalm(c, c1, a, at1, at.taskId, PREEMPTED, saved);
      }
    }
  }

  lemma LostStays(g: Graph, t: Id)
    requires t in g.tasks
    ensures Stays(g, LostGraph(g, t))
  {
    hide Stays, SetState;
    var s := if RetriesAfterLoss(g.tasks[t]) then RETRY_PENDING else FAILED;
    SetStateStays(g, t, LOST);
    SetStateStays(SetState(g, t, LOST), t, s);
    StaysTrans(g, SetState(g, t, LOST), LostGraph(g, t));
  }

  lemma {:induction false} LoseTasksCalm(c: Core, ts: seq<Id>, now: Int64)
    ensures Stays(c.graph, LoseTasks(c, ts, now).graph)
    ensures LoseTasks(c, ts, now).attempts == c.attempts
    ensures LoseTasks(c, ts, now).durable == c.durable && LoseTasks(c, ts, now).disk == c.disk
    decreases |ts|
  {
    hide Stays, LostGraph, ReleasedBook, StartBackoff;
    StaysSelf(c.graph);
    if ts != [] {
      var c1 := LoseTask(c, ts[0], now);
      if ts[0] in c.graph.tasks { LostStays(c.graph, ts[0]); }
      LoseTasksCalm(c1, ts[1..], now);
      StaysTrans(c.graph, c1.graph, LoseTasks(c1, ts[1..], now).graph);
    }
  }

  lemma LoseNodeCalm(c: Core, n: Id, now: Int64, saved: bool)
    ensures Calm(c, LoseNode(c, n, now, saved))
  {
    hide Carries, Stays, Persist, ReleaseScope, Affected, LoseTasks;
    CalmSelf(c);
    CarriesSelf(c.attempts, Epoch(c));
    if n in c.nodes {
      var c1 := c.(nodes := c.nodes[n := c.nodes[n].(health := Offline, connected := false)],
                   reservations := ReleaseScope(c.reservations, OfNode(n)));
      LoseTasksCalm(c1, Affected(c1.attempts, n), now);
      CalmPersist(c, LoseTasks(c1, Affected(c1.attempts, n), now), saved);
    }
  }

  lemma RequeueCalm(c: Core, t: Id, now: Int64, saved: bool)
    ensures Calm(c, Requeue(c, t, now, saved))
  {
    CalmSelf(c);
    if DispatchTimedOut(c, t, now) {
      SetStateStays(c.graph, t, READY);
      hide Carries, Stays, Persist, SetState, ReleasedBook;
      var c1 := SetTask(ReleaseFor(c, t), t, READY);
      CalmPersist(c, c1.(readyAt := c1.readyAt[t := now]), saved);
    }
  }

  lemma RetryCalm(c: Core, t: Id, now: Int64, saved: bool)
    ensures Calm(c, Retry(c, t, now, saved))
  {
    CalmSelf(c);
    if RetryDue(c, t, now) {
      SetStateStays(c.graph, t, READY);
      hide Carries, Stays, Persist, SetState;
      CalmPersist(c, SetTask(c, t, READY).(readyAt := c.readyAt[t := now]), saved);
    }
  }

  lemma ExpireCalm(c: Core, t: Id, now: Int64, saved: bool)
    ensures Calm(c, Expire(c, t, now, saved))
  {
    hide Carries, Stays, Persist, SetState, ReleasedBook;
    CalmSelf(c);
    SetStateStays(c.graph, t, EXPIRED);
    CalmPersist(c, SetTask(ReleaseFor(c, t), t, EXPIRED), saved);
  }

  lemma AppendCarries(m: map<Id, seq<Attempt>>, t: Id, a: Attempt, epoch: U64)
    requires !a.committed
    ensures Carries(m, m[t := AttemptsOf(m, t) + [a]], epoch)
  {
    AppendCount(AttemptsOf(m, t), a);
  }

  lemma DispatchStays(g: Graph, t: Id)
    ensures Stays(g, SetState(SetState(SetState(g, t, PLANNING), t, RESERVED), t, DISPATCHING))
  {
    hide Stays, SetState;
    var g1 := SetState(g, t, PLANNING);
    var g2 := SetState(g1, t, RESERVED);
    SetStateStays(g, t, PLANNING);
    SetStateStays(g1, t, RESERVED);
    SetStateStays(g2, t, DISPATCHING);
    StaysTrans(g, g1, g2);
    StaysTrans(g, g2, SetState(g2, t, DISPATCHING));
  }

  lemma DispatchCalm(c: Core, t: Id, d: PlacementDecision, n: NodeRecord, e: ExecutorType, ch: Choice, now: Int64)
    requires t in c.graph.tasks
    ensures Calm(c, RecordPlacement(c, t, d))
    ensures Calm(c, Dispatch(RecordPlacement(c, t, d), t, n, e, ch, now))
  {
    hide Carries, Stays, SetState;
    DispatchStays(c.graph, t);
    StaysSelf(c.graph);
    CarriesSelf(c.attempts, Epoch(c));
    AppendCarries(c.attempts, t, NewAttempt(Epoch(c), |AttemptsOf(c.attempts, t)|, t, n, e, ch, now), Epoch(c));
  }

  lemma ExpireReadyCalm(c: Core, t: Id, saved: bool)
    ensures Calm(c, Persist(SetTask(c, t, EXPIRED), saved))
  {
    hide Carries, Stays, Persist, SetState;
    CalmSelf(c);
    SetStateStays(c.graph, t, EXPIRED);
    CalmPersist(c, SetTask(c, t, EXPIRED), saved);
  }

  lemma ScheduleCalm(c: Core, t: Id, ch: Choice, now: Int64, saved: bool)
    ensures Calm(c, Schedule(c, t, ch, now, saved))
  {
    hide Calm, SetTask, Refusals, Persist, Dispatch, ChosenExecutor, SlotsFor;
    CalmSelf(c);
    ExpireReadyCalm(c, t, saved);
    if t in c.graph.tasks && TaskStateOf(c, t) == READY && ch.decision.chosenNode.Some?
       && ch.decision.chosenNode.value in c.nodes
    {
      var n := c.nodes[ch.decision.chosenNode.value];
      var e := ChosenExecutor(c.graph.tasks[t], ch.decision);
      DispatchCalm(c, t, ch.decision, n, e, ch, now);
      CalmPersist(c, Dispatch(RecordPlacement(c, t, ch.decision), t, n, e, ch, now), saved);
    } else if t in c.graph.tasks {
      PlacementCalm(c, t, ch.decision);
    }
  }

  lemma PlacementCalm(c: Core, t: Id, d: PlacementDecision)
    ensures Calm(c, RecordPlacement(c, t, d))
  {
    hide Carries, Stays;
    StaysSelf(c.graph);
    CarriesSelf(c.attempts, Epoch(c));
  }

  // ----- the completion that commits -----

  /** One attempt of `t` commits: a running task succeeds, a dispatching one stays as it
      is; other tasks keep their states except for dependents that become ready. */
  ghost predicate CommitsOne(c: Core, c1: Core, t: Id) {
    && Epoch(c1) == Epoch(c)
    && c1.graph.deps == c.graph.deps
    && CommitStates(c.graph.deps, c.graph.states, c1.graph.states, t)
    && CommitAttempts(c.attempts, c1.attempts, t, Epoch(c))
  }

  ghost predicate CommitStates(deps: Edges, s: map<Id, TaskState>, s1: map<Id, TaskState>, t: Id) {
    && s1.Keys == s.Keys && t in s
    && (s[t] == RUNNING || s[t] == DISPATCHING)
    && s1[t] == (if s[t] == RUNNING then SUCCEEDED else DISPATCHING)
    && (forall u :: u in s && u != t ==>
          s1[u] == s[u] || (s[u] == BLOCKED && s1[u] == READY && s[t] == RUNNING && t in Succ(deps, u)))
  }

  ghost predicate CommitAttempts(m: map<Id, seq<Attempt>>, m1: map<Id, seq<Attempt>>, t: Id, epoch: U64) {
    && (forall u :: CommitCount(m1, u) == CommitCount(m, u) + One(u == t))
    && (forall p :: IsSpot(m, p) ==> IsSpot(m1, p) && KeptOrCommitted(m[p.task][p.index], m1[p.task][p.index], epoch))
    && (forall p :: IsSpot(m1, p) ==> IsSpot(m, p))
  }

  ghost predicate KeptOrCommitted(a: Attempt, b: Attempt, epoch: U64) {
    b == a || (!a.committed && b.committed && a.epoch == epoch && SameOrigin(a, b))
  }

  lemma PutCommits(m: map<Id, seq<Attempt>>, p: Spot, a: Attempt, epoch: U64)
    requires IsSpot(m, p) && m[p.task][p.index].taskId == p.task
    requires KeptOrCommitted(m[p.task][p.index], a, epoch) && m[p.task][p.index] != a
    ensures CommitAttempts(m, Put(m, p, a), p.task, epoch)
  {
    ReplaceCount(m[p.task], p.index, a);
  }

  lemma SucceedStates(g: Graph, t: Id)
    requires Inverse(g) && t in g.states && (g.states[t] == RUNNING || g.states[t] == DISPATCHING)
    ensures var g1 := SetState(g, t, SUCCEEDED);
            var g2 := MakeReady(g1, Unblocked(g1, t));
            CommitStates(g.deps, g.states, g2.states, t) && g2.deps == g.deps
  {
    var g1 := SetState(g, t, SUCCEEDED);
    assert g1.deps == g.deps && g1.dependents == g.dependents;
    forall u | u in Unblocked(g1, t) ensures t in Succ(g.deps, u) && g1.states[t] == SUCCEEDED {
      assert Satisfied(g1, u);
    }
  }

  lemma CommitEffect(c: Core, a: Id, reservation: Id, out: Output, now: Int64, saved: bool)
    requires MemoryInv(c) && Commits(c, a, reservation)
    ensures CommitsOne(c, CompleteAttempt(c, a, reservation, out, now, saved), Find(c.attempts, a).task)
  {
    var p := Find(c.attempts, a);
    var at := c.attempts[p.task][p.index];
    assert AttemptOk(at, p.task, Epoch(c));
    assert Inverse(c.graph);
    hide Sound, CommitStates, CommitAttempts, SetState, MakeReady, Unblocked, Persist, ReleasedBook, Known, Snapshot;
    PutCommits(c.attempts, p, CommittedAttempt(at, out, now), Epoch(c));
    SucceedStates(c.graph, p.task);
    var c1 := c.(attempts := Put(c.attempts, p, CommittedAttempt(at, out, now)));
    var c2 := ReleaseFor(SetTask(c1, at.taskId, SUCCEEDED), at.taskId);
    PersistFrame(Unblock(c2.(cancelRequested := c2.cancelRequested - {at.taskId}), at.taskId, now), saved);
  }

  /** A success leaves no direct dependent blocked with all its dependencies succeeded. */
  lemma CommitReleasesDependents(c: Core, a: Id, reservation: Id, out: Output, now: Int64, saved: bool, u: Id)
    requires MemoryInv(c) && Commits(c, a, reservation)
    requires TaskStateOf(c, Find(c.attempts, a).task) == RUNNING
    requires Find(c.attempts, a).task in Succ(c.graph.deps, u)
    ensures var c1 := CompleteAttempt(c, a, reservation, out, now, saved);
            !(StateOf(c1.graph, u) == BLOCKED && Satisfied(c1.graph, u))
  {
    var p := Find(c.attempts, a);
    var at := c.attempts[p.task][p.index];
    assert AttemptOk(at, p.task, Epoch(c));
    assert Inverse(c.graph);
    hide Sound, SetState, Persist, ReleasedBook, Known, Snapshot;
    var c1 := c.(attempts := Put(c.attempts, p, CommittedAttempt(at, out, now)));
    var c2 := ReleaseFor(SetTask(c1, at.taskId, SUCCEEDED), at.taskId);
    PersistFrame(Unblock(c2.(cancelRequested := c2.cancelRequested - {at.taskId}), at.taskId, now), saved);
    ReadyWhenSatisfied(SetState(c.graph, p.task, SUCCEEDED), p.task, u);
  }

  lemma ReadyWhenSatisfied(g: Graph, t: Id, u: Id)
    requires u in Succ(g.dependents, t)
    ensures var g1 := MakeReady(g, Unblocked(g, t)); !(StateOf(g1, u) == BLOCKED && Satisfied(g1, u))
  {
    var g1 := MakeReady(g, Unblocked(g, t));
    if StateOf(g1, u) == BLOCKED && Satisfied(g1, u) {
      forall d | d in Succ(g.deps, u) ensures d in g.states && g.states[d] == SUCCEEDED {
        assert d in g1.states && g1.states[d] == SUCCEEDED;
      }
    }
  }
}
