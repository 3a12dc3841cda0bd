/**
 Runs of the coordinator: every handler, in any order and with any arguments, with
 saves that may fail and restarts at any point.
 */
module CoordinatorRuns {
  import opened Basics
  import opened Types
  import opened Paths
  import opened TaskGraphs
  import opened Reservations
  import opened CoordinatorCore
  import opened CoordinatorInvariants
  import opened CoordinatorSteps
  import opened CoordinatorRecovery
  import opened CoordinatorHistory
  import Lifecycle

  datatype Step =
    | DoSubmit(task: ComputeTask, workloadId: Id, workloadName: Bytes, stopping: bool)
    | DoCancel(t: Id)
    | DoStarted(a: Id, startedAt: Int64, device: Bytes)
    | DoComplete(a: Id, reservation: Id, out: Output)
    | DoFailed(a: Id, kind: FailureKind, reason: Bytes)
    | DoCancelled(a: Id, reason: Bytes)
    | DoRelease(r: Id)
    | DoNodeNews(n: Id, news: NodeNews)
    | DoLoseNode(n: Id)
    | DoRequeue(t: Id)
    | DoRetry(t: Id)
    | DoExpire(t: Id)
    | DoSchedule(t: Id, ch: Choice)
    | DoPersist
    | DoRestart

  /** A step with the time read while it ran and whether its save reached the disk. */
  datatype Event = Event(step: Step, now: Int64, saved: bool)

  /** Fresh identifiers are new, and the epoch counter has room for a restart. */
  ghost predicate Enabled(c: Core, e: Event) {
    match e.step
    case DoSchedule(t, ch) => ch.reservation !in c.reservations && !Known(c.attempts, ch.attempt)
    case DoRestart => c.disk.epoch + 1 < TWO_64
    case _ => true
  }

  ghost function MessageStep(c: Core, e: Event): Core {
    match e.step
    case DoSubmit(task, id, name, stopping) => Submit(c, task, id, name, stopping, e.now, e.saved)
    case DoCancel(t) => Cancel(c, t, e.saved)
    case DoStarted(a, startedAt, device) => StartAttempt(c, a, startedAt, device, e.saved)
    case DoComplete(a, reservation, out) => CompleteAttempt(c, a, reservation, out, e.now, e.saved)
    case DoFailed(a, kind, reason) => FailAttempt(c, a, kind, reason, e.now, e.saved)
    case DoCancelled(a, reason) => CancelledByNode(c, a, reason, e.now, e.saved)
    case DoRelease(r) => ReleaseByNode(c, r)
    case DoNodeNews(n, news) => NodeUpdate(c, n, news, e.now)
    case _ => c
  }

  ghost function Next(c: Core, e: Event): Core {
    match e.step
    case DoLoseNode(n) => LoseNode(c, n, e.now, e.saved)
    case DoRequeue(t) => Requeue(c, t, e.now, e.saved)
    case DoRetry(t) => Retry(c, t, e.now, e.saved)
    case DoExpire(t) => Expire(c, t, e.now, e.saved)
    case DoSchedule(t, ch) => Schedule(c, t, ch, e.now, e.saved)
    case DoPersist => Persist(c, e.saved)
    case DoRestart => var r := Start(c.disk, e.now, e.saved); if r.Ok? then r.value else c
    case _ => MessageStep(c, e)
  }

  /** The state after a run. */
  ghost function After(c: Core, run: seq<Event>): Core
    decreases |run|
  {
    if run == [] then c else After(Next(c, run[0]), run[1..])
  }

  ghost predicate Possible(c: Core, run: seq<Event>)
    decreases |run|
  {
    run == [] || (Enabled(c, run[0]) && Possible(Next(c, run[0]), run[1..]))
  }

  lemma {:induction false} AfterAppend(c: Core, run: seq<Event>, more: seq<Event>)
    requires Possible(c, run)
    ensures After(c, run + more) == After(After(c, run), more)
    ensures Possible(c, run + more) <==> Possible(After(c, run), more)
    decreases |run|
  {
    hide Next, Enabled;
    if run == [] {
      assert run + more == more;
    } else {
      assert (run + more)[1..] == run[1..] + more;
      AfterAppend(Next(c, run[0]), run[1..], more);
    }
  }

  /** One more event at the end of a run. */
  lemma AfterSnoc(c: Core, run: seq<Event>, e: Event)
    requires Possible(c, run) && Enabled(After(c, run), e)
    ensures Possible(c, run + [e]) && After(c, run + [e]) == Next(After(c, run), e)
  {
    hide Next, Enabled;
    AfterAppend(c, run, [e]);
    assert [e][1..] == [];
    assert After(After(c, run), [e]) == After(Next(After(c, run), e), []);
  }

  predicate AllSaved(run: seq<Event>) {
    forall e :: e in run ==> e.saved
  }

  // ----- the invariant -----

  /** A step that touches neither tasks, attempts and reservations nor what is saved. */
  ghost predicate Idle(c: Core, c1: Core) {
    && c1.graph == c.graph && c1.attempts == c.attempts && c1.reservations == c.reservations
    && c1.taskReservation == c.taskReservation && c1.durable == c.durable && c1.disk == c.disk
  }

  lemma NodeUpdateIsIdle(c: Core, n: Id, news: NodeNews, now: Int64)
    ensures Idle(c, NodeUpdate(c, n, news, now))
  {
  }

  lemma IdleInv(c: Core, c1: Core)
    requires Inv(c) && Idle(c, c1)
    ensures Inv(c1)
  {
    hide Sound, DurableInv;
  }

  lemma PersistStepInv(c: Core, saved: bool)
    requires Inv(c)
    ensures Inv(Persist(c, saved))
  {
    PersistInv(c, saved);
  }

  lemma MessageInv(c: Core, e: Event)
    requires Inv(c)
    ensures Inv(MessageStep(c, e))
  {
    hide Inv, NodeUpdate, Idle, Submit, Cancel, StartAttempt, CompleteAttempt, FailAttempt, CancelledByNode, ReleaseByNode;
    match e.step {
      case DoSubmit(task, id, name, stopping) => SubmitInv(c, task, id, name, stopping, e.now, e.saved);
      case DoCancel(t) => CancelInv(c, t, e.saved);
      case DoStarted(a, startedAt, device) => StartAttemptInv(c, a, startedAt, device, e.saved);
      case DoComplete(a, reservation, out) => CompleteAttemptInv(c, a, reservation, out, e.now, e.saved);
      case DoFailed(a, kind, reason) => FailAttemptInv(c, a, kind, reason, e.now, e.saved);
      case DoCancelled(a, reason) => CancelledByNodeInv(c, a, reason, e.now, e.saved);
      case DoRelease(r) => ReleaseByNodeInv(c, r);
      case DoNodeNews(n, news) =>
        NodeUpdateIsIdle(c, n, news, e.now);
        IdleInv(c, NodeUpdate(c, n, news, e.now));
      case _ =>
    }
  }

  lemma RestartInv(c: Core, now: Int64, saved: bool)
    requires Inv(c) && c.disk.epoch + 1 < TWO_64
    ensures Start(c.disk, now, saved).Ok? && Inv(Start(c.disk, now, saved).value)
  {
    hide MemoryInv, DurableInv, Start;
    StartRecovers(c.disk, now, saved);
  }

  lemma NextInv(c: Core, e: Event)
    requires Inv(c) && Enabled(c, e)
    ensures Inv(Next(c, e))
  {
    hide Inv, MessageStep, LoseNode, Requeue, Retry, Expire, Schedule, Persist, Start, Known;
    match e.step {
      case DoLoseNode(n) => LoseNodeInv(c, n, e.now, e.saved);
      case DoRequeue(t) => RequeueInv(c, t, e.now, e.saved);
      case DoRetry(t) => RetryInv(c, t, e.now, e.saved);
      case DoExpire(t) => ExpireInv(c, t, e.now, e.saved);
      case DoSchedule(t, ch) => ScheduleInv(c, t, ch, e.now, e.saved);
      case DoPersist => PersistStepInv(c, e.saved);
      case DoRestart => RestartInv(c, e.now, e.saved);
      case _ => MessageInv(c, e);
    }
  }

  /** Every state of every run is sound. */
  lemma {:induction false} RunInv(c: Core, run: seq<Event>)
    requires Inv(c) && Possible(c, run)
    ensures Inv(After(c, run))
    decreases |run|
  {
    hide Inv, Next;
    if run != [] {
      NextInv(c, run[0]);
      RunInv(Next(c, run[0]), run[1..]);
    }
  }

  // ----- what a step does to states and commitments -----

  /** The task whose attempt the step commits, if it commits one. */
  ghost function CommitTask(c: Core, e: Event): Option<Id> {
    if e.step.DoComplete? && Commits(c, e.step.a, e.step.reservation) then Some(Find(c.attempts, e.step.a).task)
    else None
  }

  lemma IdleCalm(c: Core, c1: Core)
    requires c1.graph == c.graph && c1.attempts == c.attempts && c1.durable == c.durable
    ensures Calm(c, c1)
  {
    hide Stays, Carries;
    StaysSelf(c.graph);
    CarriesSelf(c.attempts, Epoch(c));
  }

  lemma MessageCalm(c: Core, e: Event)
    requires MemoryInv(c) && CommitTask(c, e) == None && !e.step.DoSubmit?
    ensures Calm(c, MessageStep(c, e))
  {
    hide MemoryInv, Calm, GraphInv, AttemptsInv, NodeUpdate, Submit, Cancel, StartAttempt, CompleteAttempt, FailAttempt,
      CancelledByNode, Commits;
    GraphIsSound(c);
    match e.step {
      case DoCancel(t) => CancelCalm(c, t, e.saved);
      case DoStarted(a, startedAt, device) => StartAttemptCalm(c, a, startedAt, device, e.saved);
      case DoComplete(a, reservation, out) => RejectedCompletionCalm(c, a, reservation, out, e.now, e.saved);
      case DoFailed(a, kind, reason) => FailAttemptCalm(c, a, kind, reason, e.now, e.saved);
      case DoCancelled(a, reason) => CancelledByNodeCalm(c, a, reason, e.now, e.saved);
      case _ => OtherMessageCalm(c, e);
    }
  }

  lemma OtherMessageCalm(c: Core, e: Event)
    requires e.step.DoRelease? || e.step.DoNodeNews? || MessageStep(c, e) == c
    ensures Calm(c, MessageStep(c, e))
  {
    hide Calm, NodeUpdate;
    match e.step {
      case DoRelease(r) => IdleCalm(c, ReleaseByNode(c, r));
      case DoNodeNews(n, news) =>
        NodeUpdateIsIdle(c, n, news, e.now);
        IdleCalm(c, NodeUpdate(c, n, news, e.now));
      case _ => IdleCalm(c, c);
    }
  }

  lemma WellFormedFirst(g: Graph)
    requires GraphInv(g)
    ensures WellFormed(g)
  {
  }

  lemma NextCalm(c: Core, e: Event)
    requires MemoryInv(c) && !e.step.DoRestart? && !e.step.DoSubmit? && CommitTask(c, e) == None
    ensures Calm(c, Next(c, e))
  {
    hide MemoryInv, Calm, MessageStep, LoseNode, Requeue, Retry, Expire, Schedule, Persist, CommitTask;
    match e.step {
      case DoLoseNode(n) => LoseNodeCalm(c, n, e.now, e.saved);
      case DoRequeue(t) => RequeueCalm(c, t, e.now, e.saved);
      case DoRetry(t) => RetryCalm(c, t, e.now, e.saved);
      case DoExpire(t) => ExpireCalm(c, t, e.now, e.saved);
      case DoSchedule(t, ch) => ScheduleCalm(c, t, ch, e.now, e.saved);
      case DoPersist =>
        CalmSelf(c);
        CalmPersist(c, c, e.saved);
      case _ => MessageCalm(c, e);
    }
  }

  /** A step other than a restart either commits nothing or commits one attempt; and only
      a submission brings in a task. */
  lemma NextHistory(c: Core, e: Event)
    requires MemoryInv(c) && !e.step.DoRestart?
    ensures CommitTask(c, e) == None ==> Quiet(c, Next(c, e))
    ensures CommitTask(c, e) == None && !e.step.DoSubmit? ==> Calm(c, Next(c, e))
    ensures CommitTask(c, e).Some? ==> CommitsOne(c, Next(c, e), CommitTask(c, e).value)
  {
    hide MemoryInv, Quiet, Calm, CommitsOne, CompleteAttempt, Commits;
    if e.step.DoSubmit? {
      SubmissionQuiet(c, e);
    } else if CommitTask(c, e).Some? {
      CommitEffect(c, e.step.a, e.step.reservation, e.step.out, e.now, e.saved);
    } else {
      NextCalm(c, e);
      CalmIsQuiet(c, Next(c, e));
    }
  }

  lemma SubmissionQuiet(c: Core, e: Event)
    requires MemoryInv(c) && e.step.DoSubmit?
    ensures Quiet(c, Next(c, e))
  {
    hide MemoryInv, Quiet, GraphInv, AttemptsInv, Submit;
    GraphIsSound(c);
    WellFormedFirst(c.graph);
    SubmitQuiet(c, e.step.task, e.step.workloadId, e.step.workloadName, e.step.stopping, e.now, e.saved);
  }

  // ----- what a step does to the disk -----

  /** The disk is left alone or brought up to date; if the save succeeds, it stays up to
      date. */
  ghost predicate Through(c: Core, c1: Core, saved: bool) {
    (Synced(c1) || c1.disk == c.disk) && (saved && Synced(c) ==> Synced(c1))
  }

  lemma ThroughPersist(c: Core, x: Core, saved: bool)
    requires x.disk == c.disk
    ensures Through(c, Persist(x, saved), saved)
  {
    PersistFrame(x, saved);
  }

  lemma ThroughIdle(c: Core, c1: Core, saved: bool)
    requires c1.disk == c.disk && c1.graph == c.graph && Epoch(c1) == Epoch(c)
    requires CommittedAttempts(c1.attempts) == CommittedAttempts(c.attempts)
    ensures Through(c, c1, saved)
  {
  }

  lemma CancelThrough(c: Core, t: Id, saved: bool)
    ensures Through(c, Cancel(c, t, saved), saved)
  {
    assert CommittedAttempts(WithEntry(c.attempts, t)) == CommittedAttempts(c.attempts);
    ThroughIdle(c, c, saved);
    var c0 := c.(cancelRequested := c.cancelRequested + {t}, attempts := WithEntry(c.attempts, t));
    ThroughIdle(c, c0, saved);
    var c1 := ReleaseFor(SetTask(c, t, CANCELLED), t);
    ThroughPersist(c, c1.(cancelRequested := c1.cancelRequested - {t}), saved);
    hide Through, Persist, SetState, WithEntry, CommittedAttempts, ReleasedBook, Lifecycle.IsLegal, Lifecycle.IsTerminal;
  }

  lemma SubmitThrough(c: Core, task: ComputeTask, id: Id, name: Bytes, stopping: bool, now: Int64, saved: bool)
    requires MemoryInv(c)
    ensures Through(c, Submit(c, task, id, name, stopping, now, saved), saved)
  {
    hide MemoryInv, GraphInv, AttemptsInv, Through, Persist, SetState, Added, Extended, InitialState, WithWorkload;
    GraphIsSound(c);
    ThroughIdle(c, c, saved);
    if task.id in c.graph.tasks || stopping || task.id == ZERO_ID {
    } else if forall d :: d in task.dependencies ==> d in c.graph.tasks {
      SubmissionAccepted(c.graph, task);
      var c1 := c.(graph := SetState(Extended(c.graph, task), task.id, InitialState(task)),
                   durable := WithWorkload(c.durable, id, name),
                   readyAt := c.readyAt[task.id := now]);
      ThroughPersist(c, c1, saved);
    }
  }

  lemma StartAttemptThrough(c: Core, a: Id, startedAt: Int64, device: Bytes, saved: bool)
    ensures Through(c, StartAttempt(c, a, startedAt, device, saved), saved)
  {
    hide Through, Persist, SetState, Known;
    ThroughIdle(c, c, saved);
    if Known(c.attempts, a) {
      var p := Find(c.attempts, a);
      var at := c.attempts[p.task][p.index];
      var c1 := c.(attempts := Put(c.attempts, p,
                     at.(state := ATTEMPT_STARTED, startedAtMs := startedAt, device := device)));
      ThroughPersist(c, SetTask(c1, at.taskId, RUNNING), saved);
    }
  }

  lemma CompleteAttemptThrough(c: Core, a: Id, reservation: Id, out: Output, now: Int64, saved: bool)
    ensures Through(c, CompleteAttempt(c, a, reservation, out, now, saved), saved)
  {
    hide Through, Persist, SetState, Known, ReleasedBook, MakeReady, Unblocked, CommittedAttempt, CompletionValid;
    ThroughIdle(c, c, saved);
    if Known(c.attempts, a) {
      var p := Find(c.attempts, a);
      var at := c.attempts[p.task][p.index];
      var c1 := c.(attempts := Put(c.attempts, p,
                     at.(state := ATTEMPT_CANCELLED, failureKind := FAILURE_CANCELLED,
                         failureReason := CANCELLED_TEXT, completedAtMs := now)));
      ThroughPersist(c, ReleaseFor(SetTask(c1, at.taskId, PREEMPTED), at.taskId), saved);
      var c2 := c.(attempts := Put(c.attempts, p, CommittedAttempt(at, out, now)));
      var c3 := ReleaseFor(SetTask(c2, at.taskId, SUCCEEDED), at.taskId);
      ThroughPersist(c, Unblock(c3.(cancelRequested := c3.cancelRequested - {at.taskId}), at.taskId, now), saved);
    }
  }

  lemma FailAttemptThrough(c: Core, a: Id, kind: FailureKind, reason: Bytes, now: Int64, saved: bool)
    ensures Through(c, FailAttempt(c, a, kind, reason, now, saved), saved)
  {
    hide Through, Persist, SetState, Known, ReleasedBook, StartBackoff, MayRetry;
    ThroughIdle(c, c, saved);
    if Known(c.attempts, a) {
      var p := Find(c.attempts, a);
      var at := c.attempts[p.task][p.index];
      var retries := at.taskId in c.graph.tasks && MayRetry(c.graph.tasks[at.taskId], at.attemptNumber, kind)
                     && TaskStateOf(c, at.taskId) != SUCCEEDED;
      var c1 := ReleaseFor(c.(attempts := Put(c.attempts, p,
                     at.(state := ATTEMPT_FAILED, failureKind := kind, failureReason := reason,
                         completedAtMs := now))), at.taskId);
      ThroughPersist(c, c1.(graph := SetState(c.graph, at.taskId, if retries then RETRY_PENDING else FAILED),
                            retryReadyAt := StartBackoff(c.retryReadyAt, c.graph, at.taskId, retries, now)), saved);
    }
  }

  lemma CancelledByNodeThrough(c: Core, a: Id, reason: Bytes, now: Int64, saved: bool)
    ensures Through(c, CancelledByNode(c, a, reason, now, saved), saved)
  {
    hide Through, Persist, SetState, Known, ReleasedBook;
    ThroughIdle(c, c, saved);
    if Known(c.attempts, a) {
      var p := Find(c.attempts, a);
      var at := c.attempts[p.task][p.index];
      var c1 := c.(attempts := Put(c.attempts, p,
                     at.(state := ATTEMPT_CANCELLED, failureKind := FAILURE_CANCELLED, failureReason := reason,
                         completedAtMs := now)));
      ThroughPersist(c, SetTask(ReleaseFor(c1, at.taskId), at.taskId, PREEMPTED), saved);
    }
  }

  lemma LoseNodeThrough(c: Core, n: Id, now: Int64, saved: bool)
    ensures Through(c, LoseNode(c, n, now, saved), saved)
  {
    hide Through, Persist, ReleaseScope, Affected, LoseTasks;
    ThroughIdle(c, c, saved);
    if n in c.nodes {
      var c1 := c.(nodes := c.nodes[n := c.nodes[n].(health := Offline, connected := false)],
                   reservations := ReleaseScope(c.reservations, OfNode(n)));
      LoseTasksCalm(c1, Affected(c1.attempts, n), now);
      ThroughPersist(c, LoseTasks(c1, Affected(c1.attempts, n), now), saved);
    }
  }

  lemma SweepThrough(c: Core, t: Id, now: Int64, saved: bool)
    ensures Through(c, Requeue(c, t, now, saved), saved)
    ensures Through(c, Retry(c, t, now, saved), saved)
    ensures Through(c, Expire(c, t, now, saved), saved)
  {
    hide Through, Persist, SetState, ReleasedBook;
    ThroughIdle(c, c, saved);
    var c1 := SetTask(ReleaseFor(c, t), t, READY);
    ThroughPersist(c, c1.(readyAt := c1.readyAt[t := now]), saved);
    ThroughPersist(c, SetTask(c, t, READY).(readyAt := c.readyAt[t := now]), saved);
    ThroughPersist(c, SetTask(ReleaseFor(c, t), t, EXPIRED), saved);
  }

  lemma ScheduleThrough(c: Core, t: Id, ch: Choice, now: Int64, saved: bool)
    ensures Through(c, Schedule(c, t, ch, now, saved), saved)
  {
    var c1 := RecordPlacement(c, t, ch.decision);
    ThroughIdle(c, c, saved);
    ThroughIdle(c, c1, saved);
    ThroughPersist(c, SetTask(c, t, EXPIRED), saved);
    hide Through, SetState, Refusals, Persist, ChosenExecutor, SlotsFor, NewAttempt, Fresh;
    if t in c.graph.tasks && ch.decision.chosenNode.Some? && ch.decision.chosenNode.value in c.nodes {
      var n := c.nodes[ch.decision.chosenNode.value];
      var e := ChosenExecutor(c.graph.tasks[t], ch.decision);
      assert Dispatch(c1, t, n, e, ch, now).disk == c.disk;
      hide Dispatch;
      ThroughPersist(c, Dispatch(c1, t, n, e, ch, now), saved);
    }
  }

  lemma MessageThrough(c: Core, e: Event)
    requires MemoryInv(c)
    ensures Through(c, MessageStep(c, e), e.saved)
  {
    hide MemoryInv, Through, NodeUpdate, Submit, Cancel, StartAttempt, CompleteAttempt, FailAttempt, CancelledByNode;
    match e.step {
      case DoSubmit(task, id, name, stopping) => SubmitThrough(c, task, id, name, stopping, e.now, e.saved);
      case DoCancel(t) => CancelThrough(c, t, e.saved);
      case DoStarted(a, startedAt, device) => StartAttemptThrough(c, a, startedAt, device, e.saved);
      case DoComplete(a, reservation, out) => CompleteAttemptThrough(c, a, reservation, out, e.now, e.saved);
      case DoFailed(a, kind, reason) => FailAttemptThrough(c, a, kind, reason, e.now, e.saved);
      case DoCancelled(a, reason) => CancelledByNodeThrough(c, a, reason, e.now, e.saved);
      case _ => OtherMessageThrough(c, e);
    }
  }

  lemma OtherMessageThrough(c: Core, e: Event)
    requires e.step.DoRelease? || e.step.DoNodeNews? || MessageStep(c, e) == c
    ensures Through(c, MessageStep(c, e), e.saved)
  {
    hide Through, NodeUpdate;
    match e.step {
      case DoRelease(r) => ThroughIdle(c, ReleaseByNode(c, r), e.saved);
      case DoNodeNews(n, news) =>
        NodeUpdateIsIdle(c, n, news, e.now);
        ThroughIdle(c, NodeUpdate(c, n, news, e.now), e.saved);
      case _ => ThroughIdle(c, c, e.saved);
    }
  }

  lemma RestartThrough(c: Core, now: Int64, saved: bool)
    requires DurableInv(c.disk) && c.disk.epoch + 1 < TWO_64
    ensures Start(c.disk, now, saved).Ok?
    ensures Through(c, Start(c.disk, now, saved).value, saved)
  {
    DurableIsGood(c.disk);
    var g := RebuildFromDisk(c.disk);
    StartShape(g, c.disk, now, saved);
    hide DurableInv, GoodTasks, Partial, Start, Persist, Recovered, Restored, RecoveryTimers, Through;
    ThroughPersist(c, Awakened(g, c.disk, now), saved);
  }

  /** Write-through, one step: the disk is untouched or up to date, and up to date again
      whenever the step's save succeeds. */
  lemma NextThrough(c: Core, e: Event)
    requires Inv(c) && Enabled(c, e)
    ensures Through(c, Next(c, e), e.saved)
  {
    hide MemoryInv, DurableInv, Through, MessageStep, LoseNode, Requeue, Retry, Expire, Schedule, Persist, Start, Known;
    match e.step {
      case DoLoseNode(n) => LoseNodeThrough(c, n, e.now, e.saved);
      case DoRequeue(t) => SweepThrough(c, t, e.now, e.saved);
      case DoRetry(t) => SweepThrough(c, t, e.now, e.saved);
      case DoExpire(t) => SweepThrough(c, t, e.now, e.saved);
      case DoSchedule(t, ch) => ScheduleThrough(c, t, ch, e.now, e.saved);
      case DoPersist => ThroughPersist(c, c, e.saved);
      case DoRestart => RestartThrough(c, e.now, e.saved);
      case _ => MessageThrough(c, e);
    }
  }
}
